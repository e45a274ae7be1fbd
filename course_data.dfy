/**
 * The course-data hook (hooks/useCourse.ts): the course list read from the
 * course market contract, the set of courses the connected account owns,
 * and the purchase-in-flight marker.  Chain reads and writes are inputs:
 * the hook receives their outcomes instead of performing them.
 */
module CourseData {
  import opened Wrappers
  import opened Text

  /** Course images, reused in a cycle when there are more courses than images. */
  const ImageUrls: seq<string> := [
    "https://iihe.lk/wp-content/uploads/2024/12/Blockchain-1-1024x614-1.webp",
    "https://www.coinsclone.com/wp-content/uploads/2023/08/DeFi-Smart-Contract-Development-Company-856x467.png",
    "https://thepaymentsassociation.org/wp-content/uploads/sites/7/2023/09/DEFI.png",
    "https://www.whataportrait.com/media/wordpress/5f3cfbe5e12c6e5d1d323934b8f68676.jpg",
    "https://www.wedigraf.com/wp-content/uploads/2025/02/web3-certification-trainin-at-wedigraf-tech-hub-port-harcourt-and-uyo-nigeria-2048x1152.jpg",
    "https://www.consultia.co/wp-content/uploads/2024/04/IMG_0595.webp"
  ]

  /** The market address used when the environment does not configure one. */
  const DefaultMarketAddress := "0xb8183861ec46D734B52cb1b15642FA1F0eAd956D"

  /** `NEXT_PUBLIC_GEEK_COURSE_MARKET_ADDRESS || default`: an empty setting counts as absent. */
  function MarketAddressFrom(env: Option<string>): (r: string)
    ensures env.Some? && env.value != "" ==> r == env.value
    ensures env.None? || env.value == "" ==> r == DefaultMarketAddress
  {
    if env.Some? && env.value != "" then env.value else DefaultMarketAddress
  }

  predicate StartsWith(s: string, p: string) {
    |p| <= |s| && s[..|p|] == p
  }

  /** The purchase guard's test for an unusable market address. */
  predicate Misconfigured(address: string) {
    address == "" || StartsWith(address, "0xYour")
  }

  /** Whatever the environment says, a configured address is usable unless it is a placeholder. */
  lemma ConfiguredAddressUsable(env: Option<string>)
    ensures Misconfigured(MarketAddressFrom(env)) <==> env.Some? && env.value != "" && StartsWith(env.value, "0xYour")
  {
    assert !StartsWith(DefaultMarketAddress, "0xYour") by {
      assert DefaultMarketAddress[2] == 'b' && "0xYour"[2] == 'Y';
    }
  }

  /** A read of the market contract: `courses(id)` or `userCourses(user, id)`. */
  datatype ReadCall = CoursesCall(courseId: nat) | UserCoursesCall(user: string, courseId: nat)

  /** One entry of a multicall answer (`allowFailure: true`). */
  datatype CallResult<T> = Success(result: T) | Failure(error: string)

  /** A multicall either answers with one result per call or throws as a whole. */
  datatype MulticallOutcome<T> = Returned(results: seq<CallResult<T>>) | Threw(error: string)

  /** The tuple `courses(id)` returns. */
  datatype CourseTuple = CourseTuple(web2CourseId: string, name: string, price: nat, isActive: bool, creator: string)

  datatype ChainCourse = ChainCourse(
    id: nat, web2CourseId: string, name: string, price: nat, isActive: bool,
    creator: string, imageUrl: string, description: string)

  /** The generated description, which names the course twice. */
  function Description(name: string): (r: string)
    ensures Contains(r, name)
    ensures |r| > 2 * |name|
  {
    var intro := "这是关于 ";
    var r := intro + name + " 课程的详细描述。学习这门课程，你将掌握 " + name + " 的核心知识和实践技能。非常适合希望在相关领域深入发展的学员。";
    assert r[|intro|..|intro| + |name|] == name;
    ContainsAt(r, name, |intro|);
    r
  }

  /** The course built from the successful result at position `index`. */
  function Build(index: nat, t: CourseTuple): ChainCourse {
    ChainCourse(index + 1, t.web2CourseId, t.name, t.price, t.isActive, t.creator,
                ImageUrls[index % |ImageUrls|], Description(t.name))
  }

  /** `courses(1)` .. `courses(count)`, one call per id in increasing order. */
  method BuildCourseCalls(count: nat) returns (calls: seq<ReadCall>)
    ensures |calls| == count
    ensures forall k :: 0 <= k < count ==> calls[k] == CoursesCall(k + 1)
  {
    calls := [];
    var i := 1;
    while i <= count
      invariant 1 <= i <= count + 1
      invariant |calls| == i - 1
      invariant forall k :: 0 <= k < i - 1 ==> calls[k] == CoursesCall(k + 1)
    {
      calls := calls + [CoursesCall(i)];
      i := i + 1;
    }
  }

  /** The list the result loop pushes: one course per successful result, in result order. */
  function Assembled(rs: seq<CallResult<CourseTuple>>): seq<ChainCourse> {
    if rs == [] then []
    else
      var i := |rs| - 1;
      var init := Assembled(rs[..i]);
      if rs[i].Success? then init + [Build(i, rs[i].result)] else init
  }

  /**
   * Each assembled course is the one built from the successful result at
   * position id - 1, and that id lies in 1..|rs|.
   */
  lemma {:induction false} AssembledOrigin(rs: seq<CallResult<CourseTuple>>)
    ensures forall j :: 0 <= j < |Assembled(rs)| ==>
      1 <= Assembled(rs)[j].id <= |rs| && rs[Assembled(rs)[j].id - 1].Success?
      && Assembled(rs)[j] == Build(Assembled(rs)[j].id - 1, rs[Assembled(rs)[j].id - 1].result)
  {
    if rs != [] {
      var i := |rs| - 1;
      var pre := rs[..i];
      AssembledOrigin(pre);
      assert forall k :: 0 <= k < i ==> pre[k] == rs[k];
    }
  }

  /** Assembled ids are strictly increasing. */
  lemma {:induction false} AssembledIncreasing(rs: seq<CallResult<CourseTuple>>)
    ensures forall i, j :: 0 <= i < j < |Assembled(rs)| ==> Assembled(rs)[i].id < Assembled(rs)[j].id
  {
    if rs != [] {
      var i := |rs| - 1;
      var pre := rs[..i];
      AssembledIncreasing(pre);
      AssembledOrigin(pre);
      var init := Assembled(pre);
      assert forall k :: 0 <= k < |init| ==> init[k].id <= i;
    }
  }

  /** Every successful result yields a course with id position + 1. */
  lemma {:induction false} AssembledComplete(rs: seq<CallResult<CourseTuple>>)
    ensures forall i :: 0 <= i < |rs| && rs[i].Success? ==>
      exists j :: 0 <= j < |Assembled(rs)| && Assembled(rs)[j].id == i + 1
  {
    if rs != [] {
      var i := |rs| - 1;
      var pre := rs[..i];
      AssembledComplete(pre);
      var init := Assembled(pre);
      assert forall j :: 0 <= j < |init| ==> Assembled(rs)[j] == init[j];
      forall k | 0 <= k < |rs| && rs[k].Success?
        ensures exists j :: 0 <= j < |Assembled(rs)| && Assembled(rs)[j].id == k + 1
      {
        if k < i {
          assert pre[k].Success?;
          var j :| 0 <= j < |init| && init[j].id == k + 1;
          assert Assembled(rs)[j].id == k + 1;
        } else {
          assert Assembled(rs) == init + [Build(i, rs[i].result)];
          assert Assembled(rs)[|init|].id == k + 1;
        }
      }
    }
  }

  /** Every assembled course shows the image at (id - 1) mod 6. */
  lemma ImagesCycle(rs: seq<CallResult<CourseTuple>>)
    ensures forall c :: c in Assembled(rs) ==> c.id >= 1 && c.imageUrl == ImageUrls[(c.id - 1) % 6]
  {
    AssembledOrigin(rs);
  }

  /** The `results.forEach` loop of `fetchAllCourses`. */
  method AssembleCourses(rs: seq<CallResult<CourseTuple>>) returns (courses: seq<ChainCourse>)
    ensures courses == Assembled(rs)
  {
    courses := [];
    var index := 0;
    while index < |rs|
      invariant 0 <= index <= |rs|
      invariant courses == Assembled(rs[..index])
    {
      assert rs[..index + 1][..index] == rs[..index];
      if rs[index].Success? {
        courses := courses + [Build(index, rs[index].result)];
      }
      index := index + 1;
    }
    assert rs[..|rs|] == rs;
  }

  /** Ids of the courses whose `userCourses` read succeeded with `true`. */
  function PurchasedIds(courses: seq<ChainCourse>, rs: seq<CallResult<bool>>): set<nat>
    requires |rs| == |courses|
  {
    set i | 0 <= i < |courses| && rs[i] == Success(true) :: courses[i].id
  }

  function CourseIds(courses: seq<ChainCourse>): set<nat> {
    set c | c in courses :: c.id
  }

  predicate DistinctIds(courses: seq<ChainCourse>) {
    forall i, j :: 0 <= i < j < |courses| ==> courses[i].id != courses[j].id
  }

  /**
   * The purchased set only holds loaded course ids; when those ids are
   * distinct, a course is in it exactly when its own read answered `true`.
   */
  lemma PurchasedIdsMeaning(courses: seq<ChainCourse>, rs: seq<CallResult<bool>>)
    requires |rs| == |courses|
    ensures PurchasedIds(courses, rs) <= CourseIds(courses)
    ensures DistinctIds(courses) ==>
      forall i :: 0 <= i < |courses| ==> (courses[i].id in PurchasedIds(courses, rs) <==> rs[i] == Success(true))
  {
    if DistinctIds(courses) {
      forall i | 0 <= i < |courses| && courses[i].id in PurchasedIds(courses, rs)
        ensures rs[i] == Success(true)
      {
        var k :| 0 <= k < |courses| && rs[k] == Success(true) && courses[k].id == courses[i].id;
        assert k == i;
      }
    }
  }

  /** Assembled lists have distinct ids, so the previous lemma applies to them. */
  lemma AssembledDistinct(rs: seq<CallResult<CourseTuple>>)
    ensures DistinctIds(Assembled(rs))
  {
    AssembledIncreasing(rs);
  }

  /** The `results.forEach` loop of `fetchUserPurchasedCourses`. */
  method CollectPurchased(courses: seq<ChainCourse>, rs: seq<CallResult<bool>>) returns (ids: set<nat>)
    requires |rs| == |courses|
    ensures ids == PurchasedIds(courses, rs)
  {
    ids := {};
    var index := 0;
    while index < |rs|
      invariant 0 <= index <= |rs|
      invariant ids == set i | 0 <= i < index && rs[i] == Success(true) :: courses[i].id
    {
      if rs[index] == Success(true) {
        ids := ids + {courses[index].id};
      }
      index := index + 1;
    }
  }

  /** The hook's reading of the raw count as written: a count of 0 is falsy, so it becomes undefined. */
  function CourseCountAsWritten(data: Option<nat>): (r: Option<nat>)
    ensures r.None? <==> data.None? || data == Some(0)
    ensures r.Some? ==> r == data
  {
    if data.Some? && data.value != 0 then data else None
  }

  /** As written, the empty-market branch is unreachable: no data yields a count of 0. */
  lemma ZeroCountUnreachableAsWritten(data: Option<nat>)
    ensures CourseCountAsWritten(data) != Some(0)
    ensures CourseCountAsWritten(Some(0)) == None
  {
  }

  /** The intended reading: a count of 0 is a count. */
  function CourseCount(data: Option<nat>): (r: Option<nat>)
    ensures r.None? <==> data.None?
    ensures r.Some? ==> r.value == data.value
  {
    data
  }

  /** How the transaction receipt for the tracked purchase stands. */
  datatype TxStatus = Idle | Pending | Confirmed | Failed(error: string)

  /** The outcome of handing a purchase to the wallet. */
  datatype SubmitOutcome = Submitted(hash: string) | Rejected(error: string)

  const NotReady := "购买功能尚未准备好。"
  const NotConnected := "钱包未连接。"
  const BadAddress := "合约地址未正确配置。"
  const NotFound := "课程未找到。"

  /** The first course with the given web2 id, as `courses.find` returns it. */
  function FindByWeb2Id(courses: seq<ChainCourse>, web2Id: string): (r: Option<ChainCourse>)
    ensures r.Some? <==> exists c :: c in courses && c.web2CourseId == web2Id
    ensures r.Some? ==> r.value in courses && r.value.web2CourseId == web2Id
  {
    if courses == [] then None
    else if courses[0].web2CourseId == web2Id then Some(courses[0])
    else FindByWeb2Id(courses[1..], web2Id)
  }

  class CourseDataState {
    var courses: seq<ChainCourse>
    var isLoadingCourses: bool
    var fetchCoursesError: Option<string>
    var purchasedIds: set<nat>
    var isLoadingUserCourses: bool
    var marketAddress: string
    /** `purchasingCourseId`: the web2 id of the purchase in flight. */
    var purchasing: Option<string>
    /** The write hook's last transaction hash and submission error. */
    var purchaseHash: Option<string>
    var purchaseTxError: Option<string>
    /** The receipt hook's view of `purchaseHash`. */
    var isConfirmingPurchase: bool
    var purchaseConfirmed: bool
    var confirmationError: Option<string>
    /** Every `purchaseCourse(web2Id)` handed to the wallet, in order. */
    var submitted: seq<string>

    constructor (env: Option<string>)
      ensures courses == [] && !isLoadingCourses && fetchCoursesError.None?
      ensures purchasedIds == {} && !isLoadingUserCourses
      ensures marketAddress == MarketAddressFrom(env)
      ensures purchasing.None? && purchaseHash.None? && purchaseTxError.None?
      ensures !isConfirmingPurchase && !purchaseConfirmed && confirmationError.None?
      ensures submitted == []
    {
      courses := [];
      isLoadingCourses := false;
      fetchCoursesError := None;
      purchasedIds := {};
      isLoadingUserCourses := false;
      marketAddress := MarketAddressFrom(env);
      purchasing := None;
      purchaseHash := None;
      purchaseTxError := None;
      isConfirmingPurchase := false;
      purchaseConfirmed := false;
      confirmationError := None;
      submitted := [];
    }

    /**
     * The body of `fetchAllCourses` given the hook's `courseCount` (undefined
     * or a number), whether a public client exists, the count read's error
     * and the outcome of the course multicall.  Returns the reads it issued.
     * Under the intended reading the count is `CourseCount(countData)`.
     */
    method FetchCourses(hasClient: bool, count: Option<nat>, countError: Option<string>,
                        outcome: MulticallOutcome<CourseTuple>) returns (calls: seq<ReadCall>)
      modifies this`courses, this`isLoadingCourses, this`fetchCoursesError
      ensures !hasClient || count.None? ==> calls == [] && courses == old(courses) && isLoadingCourses == old(isLoadingCourses)
      ensures !hasClient ==> fetchCoursesError == old(fetchCoursesError)
      ensures hasClient && count.None? ==>
        fetchCoursesError == (if countError.Some? then countError else old(fetchCoursesError))
      ensures hasClient && count == Some(0) ==> calls == [] && courses == [] && !isLoadingCourses && fetchCoursesError.None?
      ensures hasClient && count.Some? && count.value > 0 ==>
        && |calls| == count.value
        && (forall k :: 0 <= k < |calls| ==> calls[k] == CoursesCall(k + 1))
        && !isLoadingCourses
        && (outcome.Returned? ==> courses == Assembled(outcome.results) && fetchCoursesError.None?)
        && (outcome.Threw? ==> courses == old(courses) && fetchCoursesError == Some(outcome.error))
    {
      calls := [];
      if !hasClient {
        return;
      }
      if count.None? {
        if countError.Some? {
          fetchCoursesError := countError;
        }
        return;
      }
      if count.value == 0 {
        courses := [];
        isLoadingCourses := false;
        fetchCoursesError := None;
        return;
      }
      isLoadingCourses := true;
      fetchCoursesError := None;
      calls := BuildCourseCalls(count.value);
      match outcome {
        case Returned(rs) =>
          courses := AssembleCourses(rs);
        case Threw(e) =>
          fetchCoursesError := Some(e);
      }
      isLoadingCourses := false;
    }

    /**
     * `fetchAllCourses` as written, from the raw count read: a count of 0
     * reads as undefined, so an empty market leaves the list, the loading
     * flag and (without a count error) the fetch error as they were.
     */
    method FetchAllCourses(hasClient: bool, countData: Option<nat>, countError: Option<string>,
                           outcome: MulticallOutcome<CourseTuple>) returns (calls: seq<ReadCall>)
      modifies this`courses, this`isLoadingCourses, this`fetchCoursesError
      ensures !hasClient || countData.None? || countData == Some(0) ==>
        calls == [] && courses == old(courses) && isLoadingCourses == old(isLoadingCourses)
      ensures !hasClient ==> fetchCoursesError == old(fetchCoursesError)
      ensures hasClient && (countData.None? || countData == Some(0)) ==>
        fetchCoursesError == (if countError.Some? then countError else old(fetchCoursesError))
      ensures hasClient && countData.Some? && countData.value > 0 ==>
        && |calls| == countData.value
        && (forall k :: 0 <= k < |calls| ==> calls[k] == CoursesCall(k + 1))
        && !isLoadingCourses
        && (outcome.Returned? ==> courses == Assembled(outcome.results) && fetchCoursesError.None?)
        && (outcome.Threw? ==> courses == old(courses) && fetchCoursesError == Some(outcome.error))
    {
      calls := FetchCourses(hasClient, CourseCountAsWritten(countData), countError, outcome);
    }

    /**
     * `fetchUserPurchasedCourses`, given whether a public client exists, the
     * connected account, and the outcome of the `userCourses` multicall,
     * which answers once per call.  Returns the reads it issued.
     */
    method FetchUserPurchasedCourses(hasClient: bool, account: Option<string>,
                                     outcome: MulticallOutcome<bool>) returns (calls: seq<ReadCall>)
      requires outcome.Returned? ==> |outcome.results| == |courses|
      modifies this`purchasedIds, this`isLoadingUserCourses
      ensures !hasClient || account.None? || account.value == "" || courses == [] ==>
        calls == [] && purchasedIds == {} && isLoadingUserCourses == old(isLoadingUserCourses)
      ensures hasClient && account.Some? && account.value != "" && courses != [] ==>
        && |calls| == |courses|
        && (forall k :: 0 <= k < |calls| ==> calls[k] == UserCoursesCall(account.value, courses[k].id))
        && !isLoadingUserCourses
        && (outcome.Returned? ==> purchasedIds == PurchasedIds(courses, outcome.results))
        && (outcome.Threw? ==> purchasedIds == old(purchasedIds))
      ensures outcome.Returned? ==> purchasedIds <= CourseIds(courses)
    {
      if !hasClient || account.None? || account.value == "" || |courses| == 0 {
        purchasedIds := {};
        return [];
      }
      isLoadingUserCourses := true;
      var loaded := courses;
      calls := seq(|loaded|, k requires 0 <= k < |loaded| => UserCoursesCall(account.value, loaded[k].id));
      match outcome {
        case Returned(rs) =>
          purchasedIds := CollectPurchased(courses, rs);
          PurchasedIdsMeaning(courses, rs);
        case Threw(_) =>
      }
      isLoadingUserCourses := false;
    }

    /** All four purchase guards pass. */
    predicate CanSubmit(hasWriter: bool, account: Option<string>, web2Id: string)
      reads this
    {
      hasWriter && account.Some? && account.value != "" && !Misconfigured(marketAddress)
      && FindByWeb2Id(courses, web2Id).Some?
    }

    /**
     * `purchaseCourse(web2Id)`, given whether the write function exists, the
     * connected account and what the wallet does with the transaction.
     * Errors are the messages it throws; `Ok` carries the transaction hash.
     */
    method PurchaseCourse(hasWriter: bool, account: Option<string>, web2Id: string,
                          submit: SubmitOutcome) returns (r: Result<string>)
      modifies this`purchasing, this`submitted, this`purchaseHash, this`purchaseTxError
      ensures !hasWriter ==> r == Err(NotReady)
      ensures hasWriter && (account.None? || account.value == "") ==> r == Err(NotConnected)
      ensures hasWriter && account.Some? && account.value != "" && Misconfigured(marketAddress) ==> r == Err(BadAddress)
      ensures (hasWriter && account.Some? && account.value != "" && !Misconfigured(marketAddress)
               && FindByWeb2Id(courses, web2Id).None?) ==> r == Err(NotFound)
      ensures !CanSubmit(hasWriter, account, web2Id) ==>
        submitted == old(submitted) && purchasing == old(purchasing)
        && purchaseHash == old(purchaseHash) && purchaseTxError == old(purchaseTxError)
      ensures CanSubmit(hasWriter, account, web2Id) ==>
        && submitted == old(submitted) + [web2Id]
        && (submit.Submitted? ==>
              r == Ok(submit.hash) && purchasing == Some(web2Id)
              && purchaseHash == Some(submit.hash) && purchaseTxError.None?)
        && (submit.Rejected? ==>
              r == Err(submit.error) && purchasing.None?
              && purchaseHash == old(purchaseHash) && purchaseTxError == Some(submit.error))
    {
      if !hasWriter {
        return Err(NotReady);
      }
      if account.None? || account.value == "" {
        return Err(NotConnected);
      }
      if Misconfigured(marketAddress) {
        return Err(BadAddress);
      }
      var toBuy := FindByWeb2Id(courses, web2Id);
      if toBuy.None? {
        return Err(NotFound);
      }
      purchasing := Some(web2Id);
      submitted := submitted + [web2Id];
      match submit {
        case Submitted(hash) =>
          purchaseHash := Some(hash);
          purchaseTxError := None;
          r := Ok(hash);
        case Rejected(e) =>
          purchaseTxError := Some(e);
          purchasing := None;
          r := Err(e);
      }
    }

    /** The receipt hook reports a status for `purchaseHash`; a final status clears the in-flight marker. */
    method OnReceiptStatus(status: TxStatus)
      modifies this`purchasing, this`isConfirmingPurchase, this`purchaseConfirmed, this`confirmationError
      ensures purchaseHash.Some? && (status.Confirmed? || status.Failed?) ==> purchasing.None?
      ensures !(purchaseHash.Some? && (status.Confirmed? || status.Failed?)) ==> purchasing == old(purchasing)
      ensures isConfirmingPurchase == status.Pending?
      ensures purchaseConfirmed == status.Confirmed?
      ensures confirmationError == (if status.Failed? then Some(status.error) else None)
    {
      isConfirmingPurchase := status.Pending?;
      purchaseConfirmed := status.Confirmed?;
      confirmationError := if status.Failed? then Some(status.error) else None;
      if purchaseHash.Some? && (status.Confirmed? || status.Failed?) {
        purchasing := None;
      }
    }

    /** `purchaseTxError || purchaseConfirmationError`. */
    function PurchaseError(): (r: Option<string>)
      reads this
      ensures r.Some? <==> purchaseTxError.Some? || confirmationError.Some?
      ensures purchaseTxError.Some? ==> r == purchaseTxError
      ensures purchaseTxError.None? ==> r == confirmationError
    {
      if purchaseTxError.Some? then purchaseTxError else confirmationError
    }

    /** The exported loading flag: any of the list, count and ownership reads is in progress. */
    function IsLoading(isLoadingCount: bool): (r: bool)
      reads this
      ensures !r <==> !isLoadingCourses && !isLoadingCount && !isLoadingUserCourses
    {
      isLoadingCourses || isLoadingCount || isLoadingUserCourses
    }

    /** The exported fetch error: the list error, else the count read's error. */
    function FetchError(countError: Option<string>): (r: Option<string>)
      reads this
      ensures r.Some? <==> fetchCoursesError.Some? || countError.Some?
      ensures fetchCoursesError.Some? ==> r == fetchCoursesError
      ensures fetchCoursesError.None? ==> r == countError
    {
      if fetchCoursesError.Some? then fetchCoursesError else countError
    }
  }
}
