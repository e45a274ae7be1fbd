/**
 * The contract test page (app/test-contract/page.tsx): forms that add,
 * update and buy courses and buy tokens through the market and token
 * contracts.  Each handler runs its guards in order, writes one status
 * message, and asks the wallet for transactions; every read and every
 * transaction outcome is an input.
 */
module ContractTestPage {
  import opened Wrappers
  import opened Text
  import opened Chain

  const MarketAddress := "0xb8183861ec46D734B52cb1b15642FA1F0eAd956D"
  const TokenAddress := "0x0ec34267121eaBeec3E30A6cAcFba3Ea782807B1"

  /** A transaction the page asks the wallet for. */
  datatype Tx =
    | Approve(spender: string, amount: nat)
    | PurchaseCourse(web2CourseId: string)
    | AddCourse(web2CourseId: string, name: string, price: nat)
    | UpdateCourse(oldWeb2CourseId: string, newWeb2CourseId: string, name: string, price: nat, isActive: bool)
    | BuyWithEth(value: nat)

  /** What `courses(id)` answers. */
  datatype CourseDetails = CourseDetails(web2CourseId: string, name: string, price: nat, isActive: bool, creator: string)

  /** The reads and transactions one purchase meets, in the order it meets them. */
  datatype PurchaseChain = PurchaseChain(
    lookup: Read<nat>, details: Read<CourseDetails>, balance: Read<nat>,
    approve: TxOutcome, purchase: TxOutcome)

  /** What a handler leaves behind: its last message, the transactions it asked for, whether it clears its form. */
  datatype Flow = Flow(message: string, sent: seq<Tx>, cleared: bool)

  // ----- messages -----

  const NotConnectedMessage := "Please connect wallet and ensure contracts are initialized (and addresses are correct)."
  const EnterIdMessage := "Please enter the Web2 Course ID to purchase."

  function NotFoundMessage(web2Id: string): string {
    "Course with Web2 ID \"" + web2Id + "\" not found or ID is invalid (possibly 0)."
  }

  function NotActiveMessage(name: string, web2Id: string): string {
    "Course \"" + name + "\" (ID: " + web2Id + ") is not active."
  }

  function InsufficientMessage(balance: string, price: string): string {
    "Insufficient Geek token balance. You have " + balance + " Geek, but the course costs " + price + " Geek."
  }

  /** The message begins with the word "Error". */
  predicate StartsWithError(m: string) {
    |m| >= 5 && m[..5] == "Error"
  }

  /**
   * The page's error messages: a prefix that begins with "Error", the
   * caught error's message, then advice.  Such a message renders red and
   * carries the error's text.
   */
  function ErrorMessage(prefix: string, e: string, advice: string): (m: string)
    requires StartsWithError(prefix)
    ensures StartsWithError(m) && Contains(m, e)
  {
    var m := prefix + e + advice;
    assert m[..5] == prefix[..5];
    assert m[|prefix|..|prefix| + |e|] == e;
    ContainsAt(m, e, |prefix|);
    m
  }

  function BuyTokensErrorMessage(e: string): string {
    ErrorMessage("Error buying Geek tokens: ", e, ". Check console for details.")
  }

  function ApprovalErrorMessage(e: string): string {
    ErrorMessage("Error during token approval: ", e, ". Check console for details. Is GEEK_TOKEN_ADDRESS (" + TokenAddress
      + ") correct and does the connected account have sufficient balance and permissions?")
  }

  function PurchaseErrorMessage(e: string): string {
    ErrorMessage("Error during course purchase: ", e,
      ". Check console for details. Is GEEK_COURSE_MARKET_ADDRESS (" + MarketAddress + ") correct?")
  }

  function PurchasedMessage(name: string, web2Id: string, hash: string): string {
    "Course \"" + name + "\" (ID: " + web2Id + ") purchased successfully! Tx: " + hash
  }

  function GenericPurchaseError(e: string): string {
    ErrorMessage("Error purchasing course: ", e, ". Check console for details.")
  }

  /** The decimals used to display amounts: the token's own once read, else 18. */
  function DisplayDecimals(decimals: Option<nat>): (r: nat)
    ensures decimals.None? ==> r == 18
    ensures decimals.Some? ==> r == decimals.value
  {
    if decimals.Some? then decimals.value else 18
  }

  /**
   * `handlePurchaseCourse` as one value: the guards in order (wallet and
   * contracts, a web2 id, a known course, an active course, enough balance),
   * then approval of exactly the price to the market, then the purchase.
   * `format(amount, decimals)` renders a token amount.
   */
  function PurchaseFlow(ready: bool, web2Id: string, decimals: Option<nat>, chain: PurchaseChain,
                        format: (nat, nat) -> string): Flow {
    if !ready then Flow(NotConnectedMessage, [], false)
    else if web2Id == "" then Flow(EnterIdMessage, [], false)
    else match chain.lookup
      case ReadFailed(e) => Flow(GenericPurchaseError(e), [], false)
      case Value(id) =>
        if id == 0 then Flow(NotFoundMessage(web2Id), [], false)
        else match chain.details
          case ReadFailed(e) => Flow(GenericPurchaseError(e), [], false)
          case Value(d) =>
            if !d.isActive then Flow(NotActiveMessage(d.name, web2Id), [], false)
            else match chain.balance
              case ReadFailed(e) => Flow(GenericPurchaseError(e), [], false)
              case Value(b) =>
                var dec := DisplayDecimals(decimals);
                if b < d.price then Flow(InsufficientMessage(format(b, dec), format(d.price, dec)), [], false)
                else PaymentFlow(web2Id, d, chain.approve, chain.purchase)
  }

  /** The two transactions of a covered purchase: approve the price to the market, then purchase once that confirmed. */
  function PaymentFlow(web2Id: string, d: CourseDetails, approve: TxOutcome, purchase: TxOutcome): Flow {
    if !approve.Confirmed? then
      Flow(ApprovalErrorMessage(approve.error), [Approve(MarketAddress, d.price)], false)
    else if !purchase.Confirmed? then
      Flow(PurchaseErrorMessage(purchase.error), [Approve(MarketAddress, d.price), PurchaseCourse(web2Id)], false)
    else
      Flow(PurchasedMessage(d.name, web2Id, purchase.hash), [Approve(MarketAddress, d.price), PurchaseCourse(web2Id)], true)
  }

  /** Every guard failure sets its own message and sends nothing; they are tried in the listed order. */
  lemma PurchaseGuards(ready: bool, web2Id: string, decimals: Option<nat>, chain: PurchaseChain, format: (nat, nat) -> string)
    ensures var f := PurchaseFlow(ready, web2Id, decimals, chain, format);
      && (!ready ==> f == Flow(NotConnectedMessage, [], false))
      && (ready && web2Id == "" ==> f == Flow(EnterIdMessage, [], false))
      && (ready && web2Id != "" && chain.lookup == Value(0) ==> f == Flow(NotFoundMessage(web2Id), [], false))
      && ((ready && web2Id != "" && chain.lookup.Value? && chain.lookup.value != 0 && chain.details.Value?
          && !chain.details.value.isActive) ==> f == Flow(NotActiveMessage(chain.details.value.name, web2Id), [], false))
      && ((ready && web2Id != "" && chain.lookup.Value? && chain.lookup.value != 0 && chain.details.Value?
          && chain.details.value.isActive && chain.balance.Value? && chain.balance.value < chain.details.value.price)
          ==> f.sent == [] && f.message == InsufficientMessage(format(chain.balance.value, DisplayDecimals(decimals)),
                                                                 format(chain.details.value.price, DisplayDecimals(decimals))))
  {
  }

  /** The one and only approval asks for exactly the course price, for the market, and only when the balance covers it. */
  lemma ApprovalCoversPrice(ready: bool, web2Id: string, decimals: Option<nat>, chain: PurchaseChain, format: (nat, nat) -> string)
    ensures var f := PurchaseFlow(ready, web2Id, decimals, chain, format);
      f.sent != [] ==>
        && ready && web2Id != ""
        && chain.lookup.Value? && chain.lookup.value != 0
        && chain.details.Value? && chain.details.value.isActive
        && chain.balance.Value? && chain.balance.value >= chain.details.value.price
        && f.sent[0] == Approve(MarketAddress, chain.details.value.price)
        && (forall k :: 1 <= k < |f.sent| ==> !f.sent[k].Approve?)
  {
  }

  /**
   * The purchase is asked for only after the approval confirmed; nothing
   * else is ever sent, so a failed purchase is never followed by a call
   * that withdraws the approval.
   */
  lemma PurchaseAfterApproval(ready: bool, web2Id: string, decimals: Option<nat>, chain: PurchaseChain, format: (nat, nat) -> string)
    ensures var f := PurchaseFlow(ready, web2Id, decimals, chain, format);
      && |f.sent| <= 2
      && (|f.sent| == 2 <==> f.sent != [] && chain.approve.Confirmed?)
      && (|f.sent| == 2 ==> f.sent[1] == PurchaseCourse(web2Id))
  {
  }

  /** The purchase input is cleared exactly when the purchase transaction confirmed. */
  lemma ClearedOnlyOnSuccess(ready: bool, web2Id: string, decimals: Option<nat>, chain: PurchaseChain, format: (nat, nat) -> string)
    ensures var f := PurchaseFlow(ready, web2Id, decimals, chain, format);
      f.cleared <==> |f.sent| == 2 && chain.purchase.Confirmed?
  {
  }

  // ----- message style -----

  datatype MessageStyle = Plain | Green | Red

  /** An error message mentions "error", "failed" or "rejected", in any case. */
  predicate IsErrorMessage(message: string) {
    var m := ToLower(message);
    Contains(m, "error") || Contains(m, "failed") || Contains(m, "rejected")
  }

  /** `getMessageStyle`: no colour for an empty message, red for an error, green otherwise. */
  function StyleOf(message: string): (r: MessageStyle)
    ensures r == Plain <==> message == ""
    ensures r == Red <==> message != "" && IsErrorMessage(message)
  {
    if message == "" then Plain else if IsErrorMessage(message) then Red else Green
  }

  /** A message that begins with "Error" is shown red. */
  lemma ErrorPrefixRed(m: string)
    requires StartsWithError(m)
    ensures StyleOf(m) == Red
  {
    var low := ToLower(m);
    assert low[..5] == "error";
  }

  /** A purchase that asked for a transaction and did not complete ends on a red message. */
  lemma UnfinishedPurchaseRed(ready: bool, web2Id: string, decimals: Option<nat>, chain: PurchaseChain, format: (nat, nat) -> string)
    ensures var f := PurchaseFlow(ready, web2Id, decimals, chain, format);
      f.sent != [] && !f.cleared ==> StyleOf(f.message) == Red
  {
    var f := PurchaseFlow(ready, web2Id, decimals, chain, format);
    if f.sent != [] && !f.cleared {
      ErrorPrefixRed(f.message);
    }
  }

  // ----- course loading -----

  /** `courses(i)` with possibly missing fields. */
  datatype RawCourse = RawCourse(web2CourseId: string, name: string, price: Option<nat>, isActive: Option<bool>, creator: string)

  datatype ListedCourse = ListedCourse(id: nat, web2CourseId: string, name: string, price: nat, isActive: bool, creator: string)

  /** Missing or empty fields become "N/A", a missing price 0, a missing flag inactive. */
  function Normalize(id: nat, raw: RawCourse): (c: ListedCourse)
    ensures c.id == id
    ensures c.web2CourseId != "" && c.name != "" && c.creator != ""
    ensures raw.web2CourseId != "" ==> c.web2CourseId == raw.web2CourseId
    ensures raw.price.None? ==> c.price == 0
    ensures raw.isActive.None? ==> !c.isActive
  {
    ListedCourse(id,
      if raw.web2CourseId == "" then "N/A" else raw.web2CourseId,
      if raw.name == "" then "N/A" else raw.name,
      if raw.price.Some? then raw.price.value else 0,
      if raw.isActive.Some? then raw.isActive.value else false,
      if raw.creator == "" then "N/A" else raw.creator)
  }

  /** The list the loop builds from the reads of ids 1..|answers|, skipping failed reads. */
  function Listed(answers: seq<Read<RawCourse>>): seq<ListedCourse> {
    if answers == [] then []
    else
      var i := |answers| - 1;
      var init := Listed(answers[..i]);
      if answers[i].Value? then init + [Normalize(i + 1, answers[i].value)] else init
  }

  /** Listed ids lie in 1..|answers| and come from successful reads. */
  lemma {:induction false} ListedOrigin(answers: seq<Read<RawCourse>>)
    ensures forall j :: 0 <= j < |Listed(answers)| ==>
      1 <= Listed(answers)[j].id <= |answers| && answers[Listed(answers)[j].id - 1].Value?
  {
    if answers != [] {
      var i := |answers| - 1;
      ListedOrigin(answers[..i]);
      assert forall k :: 0 <= k < i ==> answers[..i][k] == answers[k];
    }
  }

  /** Listed ids are strictly increasing. */
  lemma {:induction false} ListedIncreasing(answers: seq<Read<RawCourse>>)
    ensures forall i, j :: 0 <= i < j < |Listed(answers)| ==> Listed(answers)[i].id < Listed(answers)[j].id
  {
    if answers != [] {
      var i := |answers| - 1;
      ListedIncreasing(answers[..i]);
      ListedOrigin(answers[..i]);
    }
  }

  /** The whole list is lost when all reads fail. */
  lemma {:induction false} ListedEmpty(answers: seq<Read<RawCourse>>)
    ensures Listed(answers) == [] <==> forall k :: 0 <= k < |answers| ==> answers[k].ReadFailed?
  {
    if answers != [] {
      var i := |answers| - 1;
      ListedEmpty(answers[..i]);
      assert forall k :: 0 <= k < i ==> answers[..i][k] == answers[k];
    }
  }

  /** Form contents. */
  datatype AddForm = AddForm(web2CourseId: string, name: string, price: string)
  datatype UpdateForm = UpdateForm(oldWeb2CourseId: string, newWeb2CourseId: string, name: string, price: string, isActive: bool)

  const EmptyAddForm := AddForm("", "", "")
  const EmptyUpdateForm := UpdateForm("", "", "", "", true)

  const DecimalsLoadingMessage := "Token information (decimals) is still loading. Please wait a moment and try again."

  function AddErrorMessage(e: string): string {
    ErrorMessage("Error adding course: ", e, ". Check console for details.")
  }

  function UpdateErrorMessage(e: string): string {
    ErrorMessage("Error updating course: ", e, ". Check console for details.")
  }

  /**
   * `handleAddCourse` as one value.  `ready` is "market contract and signer
   * exist", `positive` is the page's "parses as a number above 0" test and
   * `toUnits(text, decimals)` is `ethers.parseUnits`, which throws (`Err`)
   * on text it cannot convert, such as "1.5" with 0 decimals or "1e3".
   */
  function AddFlow(ready: bool, decimals: Option<nat>, form: AddForm, positive: string -> bool,
                   toUnits: (string, nat) -> Result<nat>, outcome: TxOutcome): Flow {
    if !ready then Flow(NotConnectedMessage, [], false)
    else if decimals.None? then Flow(DecimalsLoadingMessage, [], false)
    else if form.web2CourseId == "" || form.name == "" || form.price == "" then Flow("Please fill all fields for adding a course.", [], false)
    else if !positive(form.price) then Flow("Invalid course price. Must be a positive number.", [], false)
    else match toUnits(form.price, decimals.value)
      case Err(e) => Flow(AddErrorMessage(e), [], false)
      case Ok(units) =>
        var tx := AddCourse(form.web2CourseId, form.name, units);
        if outcome.Confirmed? then Flow("Course \"" + form.name + "\" added successfully! Tx: " + outcome.hash, [tx], true)
        else Flow(AddErrorMessage(outcome.error), [tx], false)
  }

  /** `handleUpdateCourse` as one value; its first message drops the note about addresses. */
  function UpdateFlow(ready: bool, decimals: Option<nat>, form: UpdateForm, positive: string -> bool,
                      toUnits: (string, nat) -> Result<nat>, outcome: TxOutcome): Flow {
    if !ready then Flow("Please connect wallet and ensure contracts are initialized.", [], false)
    else if decimals.None? then Flow(DecimalsLoadingMessage, [], false)
    else if form.oldWeb2CourseId == "" || form.newWeb2CourseId == "" || form.name == "" || form.price == "" then
      Flow("Please fill all fields for updating a course.", [], false)
    else if !positive(form.price) then Flow("Invalid new course price. Must be a positive number.", [], false)
    else match toUnits(form.price, decimals.value)
      case Err(e) => Flow(UpdateErrorMessage(e), [], false)
      case Ok(units) =>
        var tx := UpdateCourse(form.oldWeb2CourseId, form.newWeb2CourseId, form.name, units, form.isActive);
        if outcome.Confirmed? then
          Flow("Course with old ID \"" + form.oldWeb2CourseId + "\" updated successfully to new ID \"" + form.newWeb2CourseId
               + "\"! Tx: " + outcome.hash, [tx], true)
        else Flow(UpdateErrorMessage(outcome.error), [tx], false)
  }

  /**
   * Adding sends nothing unless decimals are loaded, every field is filled,
   * the price is positive and converts to token units; then it sends exactly
   * one request, priced with the token's own decimals, and clears the form
   * only once it confirmed.  A price that does not convert ends on a red
   * message carrying the conversion's error.
   */
  lemma AddGates(ready: bool, decimals: Option<nat>, form: AddForm, positive: string -> bool,
                 toUnits: (string, nat) -> Result<nat>, outcome: TxOutcome)
    ensures var f := AddFlow(ready, decimals, form, positive, toUnits, outcome);
      f.sent != [] <==> ready && decimals.Some? && form.web2CourseId != "" && form.name != "" && form.price != ""
                        && positive(form.price) && toUnits(form.price, decimals.value).Ok?
    ensures var f := AddFlow(ready, decimals, form, positive, toUnits, outcome);
      f.sent != [] ==> f.sent == [AddCourse(form.web2CourseId, form.name, toUnits(form.price, decimals.value).value)]
    ensures var f := AddFlow(ready, decimals, form, positive, toUnits, outcome);
      f.cleared <==> f.sent != [] && outcome.Confirmed?
    ensures var f := AddFlow(ready, decimals, form, positive, toUnits, outcome);
      ready && decimals.Some? && form.web2CourseId != "" && form.name != "" && form.price != "" && positive(form.price)
      && toUnits(form.price, decimals.value).Err? ==>
        StyleOf(f.message) == Red && Contains(f.message, toUnits(form.price, decimals.value).message)
  {
    var f := AddFlow(ready, decimals, form, positive, toUnits, outcome);
    if ready && decimals.Some? && form.web2CourseId != "" && form.name != "" && form.price != "" && positive(form.price)
       && toUnits(form.price, decimals.value).Err? {
      ErrorPrefixRed(f.message);
    }
  }

  /** The same gates for an update, which names both the old and the new web2 id. */
  lemma UpdateGates(ready: bool, decimals: Option<nat>, form: UpdateForm, positive: string -> bool,
                    toUnits: (string, nat) -> Result<nat>, outcome: TxOutcome)
    ensures var f := UpdateFlow(ready, decimals, form, positive, toUnits, outcome);
      f.sent != [] <==> ready && decimals.Some? && form.oldWeb2CourseId != "" && form.newWeb2CourseId != ""
                        && form.name != "" && form.price != "" && positive(form.price) && toUnits(form.price, decimals.value).Ok?
    ensures var f := UpdateFlow(ready, decimals, form, positive, toUnits, outcome);
      f.sent != [] ==> f.sent == [UpdateCourse(form.oldWeb2CourseId, form.newWeb2CourseId, form.name,
                                               toUnits(form.price, decimals.value).value, form.isActive)]
    ensures var f := UpdateFlow(ready, decimals, form, positive, toUnits, outcome);
      f.cleared <==> f.sent != [] && outcome.Confirmed?
    ensures var f := UpdateFlow(ready, decimals, form, positive, toUnits, outcome);
      ready && decimals.Some? && form.oldWeb2CourseId != "" && form.newWeb2CourseId != "" && form.name != "" && form.price != ""
      && positive(form.price) && toUnits(form.price, decimals.value).Err? ==>
        StyleOf(f.message) == Red && Contains(f.message, toUnits(form.price, decimals.value).message)
  {
    var f := UpdateFlow(ready, decimals, form, positive, toUnits, outcome);
    if ready && decimals.Some? && form.oldWeb2CourseId != "" && form.newWeb2CourseId != "" && form.name != "" && form.price != ""
       && positive(form.price) && toUnits(form.price, decimals.value).Err? {
      ErrorPrefixRed(f.message);
    }
  }

  /**
   * `handleBuyGeekTokens` as one value; `toWei` is `ethers.parseEther`,
   * which throws (`Err`) on text it cannot convert, such as "1e-3".
   */
  function BuyTokensFlow(ready: bool, ethToSpend: string, positive: string -> bool, toWei: string -> Result<nat>,
                         outcome: TxOutcome): Flow {
    if !ready then Flow("Please connect wallet and ensure token contract is initialized.", [], false)
    else if ethToSpend == "" || !positive(ethToSpend) then Flow("Please enter a valid amount of ETH to spend.", [], false)
    else match toWei(ethToSpend)
      case Err(e) => Flow(BuyTokensErrorMessage(e), [], false)
      case Ok(wei) =>
        if outcome.Confirmed? then Flow("Successfully bought Geek tokens! Tx: " + outcome.hash, [BuyWithEth(wei)], true)
        else Flow(BuyTokensErrorMessage(outcome.error), [BuyWithEth(wei)], false)
  }

  /**
   * A token purchase is asked for only with a positive amount that converts
   * to wei, for exactly that many wei; the amount is cleared only once it
   * confirmed, and every other ending after the guards is shown red.
   */
  lemma BuyTokensGate(ready: bool, ethToSpend: string, positive: string -> bool, toWei: string -> Result<nat>, outcome: TxOutcome)
    ensures var f := BuyTokensFlow(ready, ethToSpend, positive, toWei, outcome);
      f.sent != [] <==> ready && ethToSpend != "" && positive(ethToSpend) && toWei(ethToSpend).Ok?
    ensures var f := BuyTokensFlow(ready, ethToSpend, positive, toWei, outcome);
      f.sent != [] ==> f.sent == [BuyWithEth(toWei(ethToSpend).value)]
    ensures var f := BuyTokensFlow(ready, ethToSpend, positive, toWei, outcome);
      f.cleared <==> f.sent != [] && outcome.Confirmed?
    ensures var f := BuyTokensFlow(ready, ethToSpend, positive, toWei, outcome);
      ready && ethToSpend != "" && positive(ethToSpend) && !f.cleared ==> StyleOf(f.message) == Red
  {
    var f := BuyTokensFlow(ready, ethToSpend, positive, toWei, outcome);
    if ready && ethToSpend != "" && positive(ethToSpend) && !f.cleared {
      ErrorPrefixRed(f.message);
    }
  }

  class TestPage {
    var account: Option<string>
    var hasSigner: bool
    /** Both contract handles exist. */
    var contractsReady: bool
    var message: string
    var rate: Option<nat>
    var decimals: Option<nat>
    var allCourses: seq<ListedCourse>
    var addForm: AddForm
    var updateForm: UpdateForm
    var purchaseId: string
    var ethToSpend: string
    /** Every transaction asked of the wallet, in order. */
    var sent: seq<Tx>

    constructor ()
      ensures account.None? && !hasSigner && !contractsReady && message == ""
      ensures rate.None? && decimals.None? && allCourses == []
      ensures addForm == EmptyAddForm && updateForm == EmptyUpdateForm && purchaseId == "" && ethToSpend == ""
      ensures sent == []
    {
      account, hasSigner, contractsReady, message := None, false, false, "";
      rate, decimals, allCourses := None, None, [];
      addForm, updateForm, purchaseId, ethToSpend := EmptyAddForm, EmptyUpdateForm, "", "";
      sent := [];
    }

    /** Wallet, signer, account and both contracts are there. */
    predicate Ready()
      reads this
    {
      contractsReady && hasSigner && account.Some? && account.value != ""
    }

    /** The wallet connected with this account. */
    method Connect(acct: string)
      modifies this`account, this`hasSigner, this`message
      ensures account == Some(acct) && hasSigner
      ensures message == "Wallet connected: " + acct
    {
      account := Some(acct);
      hasSigner := true;
      message := "Wallet connected: " + acct;
    }

    /** The purchase handler, guard after guard. */
    method HandlePurchaseCourse(chain: PurchaseChain, format: (nat, nat) -> string)
      modifies this`message, this`sent, this`purchaseId
      ensures var f := PurchaseFlow(old(Ready()), old(purchaseId), decimals, chain, format);
        message == f.message && sent == old(sent) + f.sent && purchaseId == (if f.cleared then "" else old(purchaseId))
    {
      if !Ready() {
        message := NotConnectedMessage;
        return;
      }
      if purchaseId == "" {
        message := EnterIdMessage;
        return;
      }
      var web2Id := purchaseId;
      message := "Processing purchase for course \"" + web2Id + "\"...";
      if chain.lookup.ReadFailed? {
        message := GenericPurchaseError(chain.lookup.error);
        return;
      }
      if chain.lookup.value == 0 {
        message := NotFoundMessage(web2Id);
        return;
      }
      if chain.details.ReadFailed? {
        message := GenericPurchaseError(chain.details.error);
        return;
      }
      var details := chain.details.value;
      if !details.isActive {
        message := NotActiveMessage(details.name, web2Id);
        return;
      }
      var dec := DisplayDecimals(decimals);
      if chain.balance.ReadFailed? {
        message := GenericPurchaseError(chain.balance.error);
        return;
      }
      var balance := chain.balance.value;
      if balance < details.price {
        message := InsufficientMessage(format(balance, dec), format(details.price, dec));
        return;
      }
      Pay(web2Id, details, chain.approve, chain.purchase);
    }

    /** The approve-then-purchase tail of the purchase handler. */
    method Pay(web2Id: string, details: CourseDetails, approve: TxOutcome, purchase: TxOutcome)
      modifies this`message, this`sent, this`purchaseId
      ensures var f := PaymentFlow(web2Id, details, approve, purchase);
        message == f.message && sent == old(sent) + f.sent && purchaseId == (if f.cleared then "" else old(purchaseId))
    {
      sent := sent + [Approve(MarketAddress, details.price)];
      if !approve.Confirmed? {
        message := ApprovalErrorMessage(approve.error);
        return;
      }
      message := "Approval successful. Proceeding with purchase...";
      sent := sent + [PurchaseCourse(web2Id)];
      if !purchase.Confirmed? {
        message := PurchaseErrorMessage(purchase.error);
        return;
      }
      message := PurchasedMessage(details.name, web2Id, purchase.hash);
      purchaseId := "";
    }

    /** The add-course handler; like the source it checks the contracts and the signer, not the account. */
    method HandleAddCourse(positive: string -> bool, toUnits: (string, nat) -> Result<nat>, outcome: TxOutcome)
      modifies this`message, this`sent, this`addForm
      ensures var f := AddFlow(old(contractsReady && hasSigner), decimals, old(addForm), positive, toUnits, outcome);
        message == f.message && sent == old(sent) + f.sent && addForm == (if f.cleared then EmptyAddForm else old(addForm))
    {
      if !contractsReady || !hasSigner {
        message := NotConnectedMessage;
        return;
      }
      if decimals.None? {
        message := DecimalsLoadingMessage;
        return;
      }
      if addForm.web2CourseId == "" || addForm.name == "" || addForm.price == "" {
        message := "Please fill all fields for adding a course.";
        return;
      }
      if !positive(addForm.price) {
        message := "Invalid course price. Must be a positive number.";
        return;
      }
      message := "Adding course...";
      var units := toUnits(addForm.price, decimals.value);
      if units.Err? {
        message := AddErrorMessage(units.message);
        return;
      }
      sent := sent + [AddCourse(addForm.web2CourseId, addForm.name, units.value)];
      if !outcome.Confirmed? {
        message := AddErrorMessage(outcome.error);
        return;
      }
      message := "Course \"" + addForm.name + "\" added successfully! Tx: " + outcome.hash;
      addForm := EmptyAddForm;
    }

    /**
     * The update-course handler; like the source it checks the contracts and
     * the signer, not the account.  Success also resets the active box to checked.
     */
    method HandleUpdateCourse(positive: string -> bool, toUnits: (string, nat) -> Result<nat>, outcome: TxOutcome)
      modifies this`message, this`sent, this`updateForm
      ensures var f := UpdateFlow(old(contractsReady && hasSigner), decimals, old(updateForm), positive, toUnits, outcome);
        message == f.message && sent == old(sent) + f.sent && updateForm == (if f.cleared then EmptyUpdateForm else old(updateForm))
    {
      if !contractsReady || !hasSigner {
        message := "Please connect wallet and ensure contracts are initialized.";
        return;
      }
      if decimals.None? {
        message := DecimalsLoadingMessage;
        return;
      }
      var form := updateForm;
      if form.oldWeb2CourseId == "" || form.newWeb2CourseId == "" || form.name == "" || form.price == "" {
        message := "Please fill all fields for updating a course.";
        return;
      }
      if !positive(form.price) {
        message := "Invalid new course price. Must be a positive number.";
        return;
      }
      message := "Updating course...";
      var units := toUnits(form.price, decimals.value);
      if units.Err? {
        message := UpdateErrorMessage(units.message);
        return;
      }
      sent := sent + [UpdateCourse(form.oldWeb2CourseId, form.newWeb2CourseId, form.name, units.value, form.isActive)];
      if !outcome.Confirmed? {
        message := UpdateErrorMessage(outcome.error);
        return;
      }
      message := "Course with old ID \"" + form.oldWeb2CourseId + "\" updated successfully to new ID \"" + form.newWeb2CourseId
                 + "\"! Tx: " + outcome.hash;
      updateForm := EmptyUpdateForm;
    }

    /** The token-purchase handler. */
    method HandleBuyTokens(positive: string -> bool, toWei: string -> Result<nat>, outcome: TxOutcome)
      modifies this`message, this`sent, this`ethToSpend
      ensures var f := BuyTokensFlow(old(Ready()), old(ethToSpend), positive, toWei, outcome);
        message == f.message && sent == old(sent) + f.sent && ethToSpend == (if f.cleared then "" else old(ethToSpend))
    {
      if !Ready() {
        message := "Please connect wallet and ensure token contract is initialized.";
        return;
      }
      if ethToSpend == "" || !positive(ethToSpend) {
        message := "Please enter a valid amount of ETH to spend.";
        return;
      }
      message := "Processing Geek token purchase...";
      var wei := toWei(ethToSpend);
      if wei.Err? {
        message := BuyTokensErrorMessage(wei.message);
        return;
      }
      sent := sent + [BuyWithEth(wei.value)];
      if !outcome.Confirmed? {
        message := BuyTokensErrorMessage(outcome.error);
        return;
      }
      message := "Successfully bought Geek tokens! Tx: " + outcome.hash;
      ethToSpend := "";
    }

    /**
     * `loadAllCourses`: reads the count, then ids 1..count one by one,
     * keeping the ones that answer.  `answers[i - 1]` is the answer for id i.
     */
    method LoadAllCourses(count: Read<nat>, answers: seq<Read<RawCourse>>)
      requires count.Value? ==> |answers| == count.value
      modifies this`message, this`allCourses
      ensures count.ReadFailed? ==> allCourses == [] && message == "Error loading courses: " + count.error
      ensures count == Value(0) ==> allCourses == [] && message == "No courses found in the market contract."
      ensures count.Value? && count.value > 0 ==>
        allCourses == Listed(answers)
        && message == (if allCourses != [] then "Courses loaded." else "No courses found or all failed to load.")
    {
      message := "Loading all courses...";
      if count.ReadFailed? {
        message := "Error loading courses: " + count.error;
        allCourses := [];
        return;
      }
      if count.value == 0 {
        message := "No courses found in the market contract.";
        allCourses := [];
        return;
      }
      var fetched := [];
      var i := 1;
      while i <= count.value
        invariant 1 <= i <= count.value + 1
        invariant fetched == Listed(answers[..i - 1])
      {
        assert answers[..i][..i - 1] == answers[..i - 1];
        if answers[i - 1].Value? {
          fetched := fetched + [Normalize(i, answers[i - 1].value)];
        }
        i := i + 1;
      }
      assert answers[..count.value] == answers;
      allCourses := fetched;
      message := if fetched != [] then "Courses loaded." else "No courses found or all failed to load.";
    }

    /**
     * The start-up effect once account and signer exist: contracts, then the
     * token's rate and decimals, then the course list, which loads even when
     * the token reads fail.
     */
    method Initialize(rateRead: Read<nat>, decimalsRead: Read<nat>, count: Read<nat>, answers: seq<Read<RawCourse>>)
      requires count.Value? ==> |answers| == count.value
      modifies this`contractsReady, this`rate, this`decimals, this`message, this`allCourses
      ensures account.Some? && account.value != "" && hasSigner ==>
        && contractsReady
        && rate == (if rateRead.Value? then Some(rateRead.value) else old(rate))
        && decimals == (if rateRead.Value? && decimalsRead.Value? then Some(decimalsRead.value) else old(decimals))
        && (count.Value? && count.value > 0 ==>
              allCourses == Listed(answers)
              && message == (if allCourses != [] then "Courses loaded." else "No courses found or all failed to load."))
        && (count == Value(0) ==> allCourses == [] && message == "No courses found in the market contract.")
        && (count.ReadFailed? ==> allCourses == [] && message == "Error loading courses: " + count.error)
      ensures !(account.Some? && account.value != "" && hasSigner) ==>
        contractsReady == old(contractsReady) && rate == old(rate) && decimals == old(decimals)
        && allCourses == old(allCourses) && message == old(message)
    {
      if account.None? || account.value == "" || !hasSigner {
        return;
      }
      contractsReady := true;
      message := "Contracts initialized. Ready to interact.";
      if rateRead.Value? {
        rate := Some(rateRead.value);
        if decimalsRead.Value? {
          decimals := Some(decimalsRead.value);
        }
      }
      LoadAllCourses(count, answers);
    }

    /** `getMessageStyle` for the current message. */
    function Style(): (r: MessageStyle)
      reads this
      ensures r == Red <==> message != "" && IsErrorMessage(message)
    {
      StyleOf(message)
    }
  }
}
