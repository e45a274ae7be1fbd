/**
 * The featured-course list's purchase button (components/course-listing.tsx):
 * which label it shows, when it is disabled, and which toasts a purchase
 * raises.
 */
module CourseListing {
  import opened Wrappers
  import opened Text
  import opened CourseData

  /** What the purchase button says, before translation. */
  datatype ButtonState = Owned | Unavailable | Confirming | Purchasing | Purchasable

  /** The purchase in flight is this course's. */
  predicate InFlight(course: ChainCourse, purchasing: Option<string>) {
    purchasing == Some(course.web2CourseId)
  }

  /** The label chosen first by ownership, then inactivity, then an in-flight purchase. */
  function StateOf(course: ChainCourse, owned: set<nat>, purchasing: Option<string>, confirming: bool): (r: ButtonState)
    ensures course.id in owned ==> r == Owned
    ensures course.id !in owned && !course.isActive ==> r == Unavailable
    ensures course.id !in owned && course.isActive && InFlight(course, purchasing) ==>
      r == (if confirming then Confirming else Purchasing)
    ensures r == Purchasable <==> course.id !in owned && course.isActive && !InFlight(course, purchasing)
  {
    if course.id in owned then Owned
    else if !course.isActive then Unavailable
    else if InFlight(course, purchasing) then (if confirming then Confirming else Purchasing)
    else Purchasable
  }

  /** The translated label: Chinese for "zh", Korean for "ko", English for every other code. */
  function Label(state: ButtonState, lang: string): string {
    match state
    case Owned => if lang == "zh" then "已购买" else if lang == "ko" then "구매 완료" else "Purchased"
    case Unavailable => if lang == "zh" then "不可购买" else if lang == "ko" then "구매 불가" else "Not Available"
    case Confirming => if lang == "zh" then "确认中..." else if lang == "ko" then "확인 중..." else "Confirming..."
    case Purchasing => if lang == "zh" then "购买中..." else if lang == "ko" then "구매 중..." else "Purchasing..."
    case Purchasable => if lang == "zh" then "购买课程" else if lang == "ko" then "코스 구매" else "Purchase Course"
  }

  /** `getPurchaseButtonText(course)`. */
  function ButtonText(course: ChainCourse, owned: set<nat>, purchasing: Option<string>, confirming: bool, lang: string): string {
    Label(StateOf(course, owned, purchasing, confirming), lang)
  }

  /** The button's `disabled` expression. */
  predicate Disabled(course: ChainCourse, owned: set<nat>, purchasing: Option<string>) {
    InFlight(course, purchasing) || !course.isActive || course.id in owned
  }

  /** The button is enabled exactly when it offers the purchase, in every language. */
  lemma EnabledIffPurchaseLabel(course: ChainCourse, owned: set<nat>, purchasing: Option<string>, confirming: bool, lang: string)
    ensures !Disabled(course, owned, purchasing) <==> ButtonText(course, owned, purchasing, confirming, lang) == Label(Purchasable, lang)
  {
    LabelsDistinct(StateOf(course, owned, purchasing, confirming), Purchasable, lang);
  }

  /** Within one language no two states share a label, so the text tells the state. */
  lemma LabelsDistinct(s: ButtonState, t: ButtonState, lang: string)
    ensures Label(s, lang) == Label(t, lang) <==> s == t
  {
    if s != t {
      var a, b := Label(s, lang), Label(t, lang);
      assert a[0] != b[0] || a[1] != b[1] || |a| != |b| || a[4] != b[4];
    }
  }

  /** Codes other than "zh" and "ko" read the English labels. */
  lemma OtherLanguagesEnglish(s: ButtonState, lang: string)
    requires lang != "zh" && lang != "ko"
    ensures Label(s, lang) == Label(s, "en")
  {
  }

  datatype Toast = Toast(title: string, description: string, destructive: bool)

  /**
   * The toast `handlePurchase` raises when `purchaseCourse` throws: none when
   * the render already had a purchase error, else the thrown message or a
   * fallback for an empty one.
   */
  function InitiationToast(renderedError: Option<string>, thrown: string): (r: Option<Toast>)
    ensures r.Some? <==> renderedError.None?
    ensures r.Some? ==> r.value.title == "Purchase Error" && r.value.destructive && r.value.description != ""
    ensures r.Some? && thrown != "" ==> r.value.description == thrown
  {
    if renderedError.Some? then None
    else Some(Toast("Purchase Error", if thrown == "" then "Could not initiate purchase." else thrown, true))
  }

  /**
   * The toasts the status effect raises: a success toast naming the hash
   * when the purchase confirmed, then a failure toast when an error is set.
   */
  function StatusToasts(confirmed: bool, hash: string, error: Option<string>): (r: seq<Toast>)
    ensures |r| == (if confirmed then 1 else 0) + (if error.Some? then 1 else 0)
    ensures forall t :: t in r ==> (t.destructive <==> t.title == "Purchase Failed")
    ensures confirmed ==>
      r[0].title == "Purchase Successful!" && !r[0].destructive && Contains(r[0].description, "Transaction Hash: " + hash)
    ensures error.Some? ==>
      && r[|r| - 1].title == "Purchase Failed" && r[|r| - 1].destructive
      && r[|r| - 1].description == (if error.value == "" then "An unknown error occurred." else error.value)
  {
    var shown := "Transaction Hash: " + hash;
    assert shown <= shown;
    ContainsInSuffix("Course purchased. ", shown, shown);
    (if confirmed then [Toast("Purchase Successful!", "Course purchased. " + shown, false)] else [])
    + (if error.Some? then [Toast("Purchase Failed", if error.value == "" then "An unknown error occurred." else error.value, true)] else [])
  }

  /**
   * `handlePurchase(web2Id)`: starts the purchase and, when it throws, shows
   * the initiation toast computed from the purchase error the list rendered with.
   */
  method HandlePurchase(data: CourseDataState, hasWriter: bool, account: Option<string>, web2Id: string,
                        submit: SubmitOutcome, renderedError: Option<string>) returns (toast: Option<Toast>)
    modifies data`purchasing, data`submitted, data`purchaseHash, data`purchaseTxError
    ensures toast.Some? ==> renderedError.None?
    ensures renderedError.None? && (!old(data.CanSubmit(hasWriter, account, web2Id)) || submit.Rejected?) ==> toast.Some?
    ensures !hasWriter ==> toast == InitiationToast(renderedError, NotReady)
    ensures hasWriter && (account.None? || account.value == "") ==> toast == InitiationToast(renderedError, NotConnected)
    ensures hasWriter && account.Some? && account.value != "" && Misconfigured(data.marketAddress) ==>
      toast == InitiationToast(renderedError, BadAddress)
    ensures (hasWriter && account.Some? && account.value != "" && !Misconfigured(data.marketAddress)
             && FindByWeb2Id(data.courses, web2Id).None?) ==> toast == InitiationToast(renderedError, NotFound)
    ensures old(data.CanSubmit(hasWriter, account, web2Id)) && submit.Rejected? ==> toast == InitiationToast(renderedError, submit.error)
    ensures old(data.CanSubmit(hasWriter, account, web2Id)) && submit.Submitted? ==> toast.None?
    ensures !old(data.CanSubmit(hasWriter, account, web2Id)) ==>
      data.submitted == old(data.submitted) && data.purchasing == old(data.purchasing)
      && data.purchaseHash == old(data.purchaseHash) && data.purchaseTxError == old(data.purchaseTxError)
    ensures old(data.CanSubmit(hasWriter, account, web2Id)) ==>
      && data.submitted == old(data.submitted) + [web2Id]
      && (submit.Submitted? ==>
            data.purchasing == Some(web2Id) && data.purchaseHash == Some(submit.hash) && data.purchaseTxError.None?)
      && (submit.Rejected? ==>
            data.purchasing.None? && data.purchaseHash == old(data.purchaseHash) && data.purchaseTxError == Some(submit.error))
  {
    var r := data.PurchaseCourse(hasWriter, account, web2Id, submit);
    toast := if r.Err? then InitiationToast(renderedError, r.message) else None;
  }
}
