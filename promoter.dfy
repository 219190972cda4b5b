/** The referral ("promoter") programme page: activation with a generated
    referral code, the payment details, and payout requests screened against
    a minimum, the funds not yet requested and the payment method. */
module ProgramaPromotor {
  import opened Wrappers
  import opened Seqs
  import Text

  datatype ReferralData = ReferralData(
    isActivated: bool,
    referralCode: string,
    totalReferrals: int,
    totalEarnings: real,
    pendingPayouts: real,
    completedPayouts: real,
    paymentInfo: map<string, string>) // "method", "bankAccount", "paypalEmail", "cryptoWallet"

  /** `status` is one of 'pending', 'approved', 'completed', 'rejected'. */
  datatype PayoutRequest = PayoutRequest(
    id: string, amount: real, status: string, requestDate: string, paymentMethod: string)

  const MinimumPayout: real := 50.0

  /** The state before anything is saved. */
  const InitialData := ReferralData(false, "", 0, 0.0, 0.0, 0.0, map["method" := ""])

  /** `referralData.paymentInfo.method`, empty when it was never set. */
  function PaymentMethod(d: ReferralData): (m: string)
    ensures "method" in d.paymentInfo ==> m == d.paymentInfo["method"]
    ensures "method" !in d.paymentInfo ==> m == ""
  {
    if "method" in d.paymentInfo then d.paymentInfo["method"] else ""
  }

  /** `availableBalance`: earnings less pending and completed payouts. */
  function AvailableBalance(d: ReferralData): (b: real)
    ensures b + d.pendingPayouts + d.completedPayouts == d.totalEarnings
  {
    d.totalEarnings - d.pendingPayouts - d.completedPayouts
  }

  datatype PayoutOutcome = BelowMinimum | InsufficientFunds | NoPaymentMethod | Requested

  /** The three checks of `requestPayout`, in their order: the first that
      fails decides. */
  function ScreenPayout(d: ReferralData, amount: real): (o: PayoutOutcome)
    ensures o == BelowMinimum <==> amount < MinimumPayout
    ensures o == InsufficientFunds <==> amount >= MinimumPayout && amount > d.totalEarnings - d.pendingPayouts
    ensures o == NoPaymentMethod <==>
              MinimumPayout <= amount <= d.totalEarnings - d.pendingPayouts && PaymentMethod(d) == ""
    ensures o == Requested <==>
              MinimumPayout <= amount <= d.totalEarnings - d.pendingPayouts && PaymentMethod(d) != ""
  {
    if amount < MinimumPayout then BelowMinimum
    else if amount > d.totalEarnings - d.pendingPayouts then InsufficientFunds
    else if PaymentMethod(d) == "" then NoPaymentMethod
    else Requested
  }

  /** The "Solicitar Pago" button is enabled once the displayed balance is at
      least the minimum. */
  predicate PayoutEnabled(d: ReferralData)
  {
    AvailableBalance(d) >= MinimumPayout
  }

  /** With the button enabled and no negative completed payouts, the minimum
      amount passes the funds check. */
  lemma EnabledMinimumPasses(d: ReferralData)
    requires PayoutEnabled(d) && d.completedPayouts >= 0.0
    ensures ScreenPayout(d, MinimumPayout) != InsufficientFunds
    ensures ScreenPayout(d, MinimumPayout) == Requested <==> PaymentMethod(d) != ""
  {
  }

  /** The funds check leaves out the completed payouts, so a request the
      screen accepts can be larger than the balance the page displays, even
      with the button enabled: earnings 200 with 100 already paid out leave
      100 on display, yet 150 is accepted. */
  lemma AcceptedAboveDisplayedBalance()
    ensures var d := InitialData.(totalEarnings := 200.0, completedPayouts := 100.0,
                                  paymentInfo := map["method" := "paypal"]);
            PayoutEnabled(d) && ScreenPayout(d, 150.0) == Requested && 150.0 > AvailableBalance(d)
  {
  }

  /** With nothing paid out yet the two agree: an accepted amount never
      exceeds the displayed balance. */
  lemma AcceptedWithinBalanceWithoutCompleted(d: ReferralData, amount: real)
    requires d.completedPayouts == 0.0
    requires ScreenPayout(d, amount) == Requested
    ensures MinimumPayout <= amount <= AvailableBalance(d)
  {
  }

  predicate IsPending(p: PayoutRequest)
  {
    p.status == "pending"
  }

  function PayoutAmount(p: PayoutRequest): real
  {
    p.amount
  }

  /** The bookkeeping the page keeps in step: the pending total is the sum of
      the pending requests and never exceeds the earnings. */
  predicate Consistent(d: ReferralData, requests: seq<PayoutRequest>)
  {
    d.pendingPayouts == Sum(Filter(requests, IsPending), PayoutAmount)
    && 0.0 <= d.pendingPayouts <= d.totalEarnings
  }

  /** The state before anything happened is consistent. */
  lemma InitialConsistent()
    ensures Consistent(InitialData, [])
  {
  }

  /** `userName.replace(/\s+/g, '').substring(0, 6).toUpperCase()`. */
  function CodePrefix(userName: string): (p: string)
    ensures var letters := Text.RemoveWhitespace(userName);
            |p| == (if |letters| < 6 then |letters| else 6)
            && forall k :: 0 <= k < |p| ==> p[k] == Text.UpperChar(letters[k]) && !Text.IsWhitespace(letters[k])
  {
    var letters := Text.RemoveWhitespace(userName);
    Text.ToUpper(letters[..if |letters| < 6 then |letters| else 6])
  }

  /** `user.name || 'Usuario'`: a missing or empty name falls back. */
  function UserName(storedName: Option<string>): (n: string)
    ensures n != ""
    ensures storedName.Some? && storedName.value != "" ==> n == storedName.value
  {
    if storedName.Some? && storedName.value != "" then storedName.value else "Usuario"
  }

  /** `generateReferralCode()`: the prefix of the name followed by the random
      suffix, upper-cased. */
  function ReferralCode(storedName: Option<string>, randomSuffix: string): (code: string)
    ensures code == CodePrefix(UserName(storedName)) + Text.ToUpper(randomSuffix)
    ensures |CodePrefix(UserName(storedName))| <= 6
  {
    CodePrefix(UserName(storedName)) + Text.ToUpper(randomSuffix)
  }

  /** A name without whitespace keeps its first six characters, upper-cased. */
  lemma CodePrefixOfPlainName(userName: string)
    requires forall k :: 0 <= k < |userName| ==> !Text.IsWhitespace(userName[k])
    ensures CodePrefix(userName) == Text.ToUpper(userName[..if |userName| < 6 then |userName| else 6])
  {
    FilterAll(userName, Text.IsNotWhitespace);
  }

  /** A name made only of whitespace gives an empty prefix, leaving the code
      to the random suffix. */
  lemma CodePrefixOfBlankName(userName: string)
    requires forall k :: 0 <= k < |userName| ==> Text.IsWhitespace(userName[k])
    ensures CodePrefix(userName) == ""
  {
    var letters := Text.RemoveWhitespace(userName);
    assert forall k :: 0 <= k < |letters| ==> letters[k] in letters;
  }

  /** `getStatusColor(status)`. */
  function StatusColor(status: string): (c: string)
    ensures status !in {"pending", "approved", "completed", "rejected"} ==> c == "bg-gray-500"
    ensures status in {"pending", "approved", "completed", "rejected"} ==> c != "bg-gray-500"
    ensures status == "pending" ==> c == "bg-yellow-500"
    ensures status == "approved" ==> c == "bg-blue-500"
    ensures status == "completed" ==> c == "bg-green-500"
    ensures status == "rejected" ==> c == "bg-red-500"
  {
    match status
    case "pending" => "bg-yellow-500"
    case "approved" => "bg-blue-500"
    case "completed" => "bg-green-500"
    case "rejected" => "bg-red-500"
    case _ => "bg-gray-500"
  }

  /** `getStatusText(status)`: the Spanish label, or the status itself. */
  function StatusText(status: string): (t: string)
    ensures status !in {"pending", "approved", "completed", "rejected"} ==> t == status
    ensures status in {"pending", "approved", "completed", "rejected"} ==>
              t in {"Pendiente", "Aprobado", "Completado", "Rechazado"}
    ensures status == "pending" ==> t == "Pendiente"
    ensures status == "approved" ==> t == "Aprobado"
    ensures status == "completed" ==> t == "Completado"
    ensures status == "rejected" ==> t == "Rechazado"
  {
    match status
    case "pending" => "Pendiente"
    case "approved" => "Aprobado"
    case "completed" => "Completado"
    case "rejected" => "Rechazado"
    case _ => status
  }

  /** The four statuses get four different colours and four different
      labels. */
  lemma StatusesDistinguished(s1: string, s2: string)
    requires s1 in {"pending", "approved", "completed", "rejected"}
    requires s2 in {"pending", "approved", "completed", "rejected"}
    requires s1 != s2
    ensures StatusColor(s1) != StatusColor(s2)
    ensures StatusText(s1) != StatusText(s2)
  {
  }

  /** The page state. */
  class Promoter {
    var data: ReferralData
    var payoutRequests: seq<PayoutRequest>
    var payoutAmount: real

    constructor()
      ensures data == InitialData && payoutRequests == [] && payoutAmount == 0.0
      ensures Consistent(data, payoutRequests)
    {
      data, payoutRequests, payoutAmount := InitialData, [], 0.0;
    }

    /** The amount field: `parseFloat(value) || 0`. */
    method SetPayoutAmount(parsed: Option<real>)
      modifies this
      ensures payoutAmount == parsed.GetOr(0.0)
      ensures data == old(data) && payoutRequests == old(payoutRequests)
    {
      payoutAmount := parsed.GetOr(0.0);
    }

    /** `activateProgram`: marks the programme active and stores a new code;
        nothing else changes. */
    method ActivateProgram(storedName: Option<string>, randomSuffix: string)
      modifies this
      ensures data == old(data).(isActivated := true, referralCode := ReferralCode(storedName, randomSuffix))
      ensures payoutRequests == old(payoutRequests) && payoutAmount == old(payoutAmount)
      ensures Consistent(old(data), payoutRequests) ==> Consistent(data, payoutRequests)
    {
      data := data.(isActivated := true, referralCode := ReferralCode(storedName, randomSuffix));
    }

    /** `updatePaymentInfo(field, value)`: exactly one payment field takes the
        value; every other field and the rest of the state stay. */
    method UpdatePaymentInfo(field: string, value: string)
      modifies this
      ensures field in data.paymentInfo && data.paymentInfo[field] == value
      ensures forall k :: k != field ==>
                (k in data.paymentInfo <==> k in old(data).paymentInfo)
                && (k in data.paymentInfo ==> data.paymentInfo[k] == old(data).paymentInfo[k])
      ensures data == old(data).(paymentInfo := data.paymentInfo)
      ensures payoutRequests == old(payoutRequests) && payoutAmount == old(payoutAmount)
      ensures Consistent(old(data), payoutRequests) ==> Consistent(data, payoutRequests)
    {
      data := data.(paymentInfo := data.paymentInfo[field := value]);
    }

    /** `requestPayout`, reachable only through the enabled button: on a
        failed check nothing changes; otherwise one pending request for the
        amount and the current method is appended, the amount is added to the
        pending total and the field is cleared. */
    method RequestPayout(id: string, requestDate: string) returns (outcome: PayoutOutcome)
      requires PayoutEnabled(data)
      modifies this
      ensures outcome == ScreenPayout(old(data), old(payoutAmount))
      ensures outcome == Requested ==>
                payoutRequests == old(payoutRequests)
                                  + [PayoutRequest(id, old(payoutAmount), "pending", requestDate, PaymentMethod(old(data)))]
                && data == old(data).(pendingPayouts := old(data).pendingPayouts + old(payoutAmount))
                && payoutAmount == 0.0
      ensures outcome != Requested ==>
                data == old(data) && payoutRequests == old(payoutRequests) && payoutAmount == old(payoutAmount)
      ensures old(data).pendingPayouts <= old(data).totalEarnings ==> data.pendingPayouts <= data.totalEarnings
      ensures Consistent(old(data), old(payoutRequests)) ==> Consistent(data, payoutRequests)
    {
      outcome := ScreenPayout(data, payoutAmount);
      if outcome != Requested {
        return;
      }
      var request := PayoutRequest(id, payoutAmount, "pending", requestDate, PaymentMethod(data));
      FilterAppend(payoutRequests, request, IsPending);
      SumAppend(Filter(payoutRequests, IsPending), request, PayoutAmount);
      payoutRequests := payoutRequests + [request];
      data := data.(pendingPayouts := data.pendingPayouts + payoutAmount);
      payoutAmount := 0.0;
    }
  }
}
