/**
 * The wallet summary (hooks/useWallet.ts): the shortened address, the name
 * shown for the account, and the balance text.
 */
module Wallet {
  import opened Wrappers

  /** `s.slice(0, n)`. */
  function Head(s: string, n: nat): (r: string)
    ensures |r| == if |s| < n then |s| else n
    ensures r <= s
  {
    if |s| < n then s else s[..n]
  }

  /** `s.slice(-n)` for n > 0: the last n characters, or all of a shorter string. */
  function Tail(s: string, n: nat): (r: string)
    ensures |r| == if |s| < n then |s| else n
    ensures s == s[..|s| - |r|] + r
  {
    if |s| < n then s else s[|s| - n..]
  }

  /** `displayAddress`: nothing without an address, else its first 6 and last 4 characters around "...". */
  function DisplayAddress(address: Option<string>): Option<string> {
    if address.None? || address.value == "" then None
    else Some(Head(address.value, 6) + "..." + Tail(address.value, 4))
  }

  /**
   * Any address of at least 10 characters shortens to 13: its own first 6,
   * "...", its own last 4; a full 42-character address therefore loses 29.
   */
  lemma ShortenedAddress(a: string)
    requires |a| >= 10
    ensures DisplayAddress(Some(a)).Some?
    ensures var d := DisplayAddress(Some(a)).value;
      && |d| == 13
      && d[..6] == a[..6]
      && d[6..9] == "..."
      && d[9..] == a[|a| - 4..]
    ensures |a| == 42 ==> |DisplayAddress(Some(a)).value| == |a| - 29
  {
    var d := DisplayAddress(Some(a)).value;
    assert d == a[..6] + "..." + a[|a| - 4..];
    assert d[6..9] == "...";
    assert d[9..] == a[|a| - 4..];
  }

  /** A missing or empty address shows nothing. */
  lemma NoAddressNoDisplay(address: Option<string>)
    ensures DisplayAddress(address).None? <==> address.None? || address.value == ""
  {
  }

  /** `ensName || displayAddress`: a non-empty name wins, else the shortened address. */
  function DisplayName(ensName: Option<string>, displayAddress: Option<string>): (r: Option<string>)
    ensures ensName.Some? && ensName.value != "" ==> r == ensName
    ensures ensName.None? || ensName.value == "" ==> r == displayAddress
  {
    if ensName.Some? && ensName.value != "" then ensName else displayAddress
  }

  /** The name shown is missing only when there is neither a name nor an address. */
  lemma DisplayNamePresent(ensName: Option<string>, address: Option<string>)
    ensures DisplayName(ensName, DisplayAddress(address)).None? <==>
      (ensName.None? || ensName.value == "") && (address.None? || address.value == "")
  {
  }

  /** The balance the wallet library reports: a decimal text and the token symbol. */
  datatype BalanceData = BalanceData(formatted: string, symbol: string)

  /**
   * `formattedBalance`: nothing without balance data; "0 SYM" for a zero
   * amount; otherwise the amount rendered by `render` (the locale formatting
   * with at most four fraction digits) and the symbol.  `isZero` is the
   * page's `parseFloat(formatted) === 0`.
   */
  function FormattedBalance(data: Option<BalanceData>, isZero: string -> bool, render: string -> string): (r: Option<string>)
    ensures r.None? <==> data.None?
    ensures r.Some? ==> |r.value| > |data.value.symbol| && r.value[|r.value| - |data.value.symbol| - 1..] == " " + data.value.symbol
    ensures r.Some? && isZero(data.value.formatted) ==> r.value == "0 " + data.value.symbol
  {
    if data.None? then None
    else if isZero(data.value.formatted) then
      SuffixAfter("0", " " + data.value.symbol);
      Some("0 " + data.value.symbol)
    else
      var amount, unit := render(data.value.formatted), " " + data.value.symbol;
      SuffixAfter(amount, unit);
      Some(amount + unit)
  }

  lemma SuffixAfter(a: string, b: string)
    ensures (a + b)[|a + b| - |b|..] == b
  {
  }
}
