/** The payment detection service. It keeps only window events from the WeChat and Alipay
    packages. It waits out a 3000 ms cooldown after the last detection, shared by both apps.
    It requires some node of the active window with the success text, and takes the amount
    from the concatenated window text with the app's pattern. On a detection it starts the
    confirmation card with amount, merchant and pay method, and stamps the cooldown. */
module PaymentDetection {
  import opened Base
  import opened AccessibilityTree
  import opened AmountPatterns
  import opened DecimalAmount
  import opened MerchantExtraction
  import opened FloatingRecord

  /** `AccessibilityEvent.TYPE_WINDOW_STATE_CHANGED` and `TYPE_WINDOW_CONTENT_CHANGED`. */
  const TypeWindowStateChanged: int := 0x20
  const TypeWindowContentChanged: int := 0x800

  const WechatPackage: string := "com.tencent.mm"
  const AlipayPackage: string := "com.eg.android.AlipayGphone"

  /** "Payment successful", the same text for both apps. */
  const WechatPaySuccessText: string := "支付成功"
  const AlipayPaySuccessText: string := "支付成功"

  /** The cooldown between two detections, in milliseconds. */
  const CoolDownTime: Long := 3000

  /** The parts of an accessibility event the service reads; a missing package name is
      `None`. */
  datatype Event = Event(eventType: int, packageName: Option<string>)

  datatype SourceApp = WeChat | Alipay

  /** The filter of `onAccessibilityEvent`: the app whose handler an event reaches, if any. */
  function SourceAppOf(ev: Event): (r: Option<SourceApp>)
    ensures r.None? <==>
              || (ev.eventType != TypeWindowStateChanged && ev.eventType != TypeWindowContentChanged)
              || ev.packageName.None?
              || (ev.packageName.value != WechatPackage && ev.packageName.value != AlipayPackage)
    ensures r == Some(WeChat) ==> ev.packageName == Some(WechatPackage)
    ensures r == Some(Alipay) ==> ev.packageName == Some(AlipayPackage)
  {
    if ev.eventType != TypeWindowStateChanged && ev.eventType != TypeWindowContentChanged then None
    else if ev.packageName.None? then None
    else if ev.packageName.value == WechatPackage then Some(WeChat)
    else if ev.packageName.value == AlipayPackage then Some(Alipay)
    else None
  }

  function SuccessText(app: SourceApp): string {
    match app
    case WeChat => WechatPaySuccessText
    case Alipay => AlipayPaySuccessText
  }

  /** The pay method passed on to the card. */
  function PayMethod(app: SourceApp): string {
    match app
    case WeChat => "微信支付"
    case Alipay => "支付宝"
  }

  /** The app's amount pattern applied to the window text. */
  function MatchAmount(app: SourceApp, text: string): (r: Option<string>)
    ensures r.Some? ==> AmountShape(r.value)
  {
    match app
    case WeChat => MatchWechat(text)
    case Alipay => MatchAlipay(text)
  }

  /** The cooldown test `currentTime - lastDetectedTime < coolDownTime`, on `Long`s. */
  predicate CoolingDown(last: Long, now: Long) {
    LongSub(now, last) < CoolDownTime
  }

  /** The intent `showAccountingWindow` starts the card with; `nowAtShow` is the clock
      as read there. */
  function CardIntent(amount: string, merchant: string, payMethod: string, nowAtShow: Long): Intent {
    Intent(Some(amount), Some(merchant), Some(payMethod), Some(nowAtShow))
  }

  /** What one handler decides: the intent it starts the card with, or `None` when it
      returns early. `window` is the active window (`None` when there is none), `now` the
      clock at entry. */
  function Handle(last: Long, app: SourceApp, window: Option<Tree>, now: Long, nowAtShow: Long)
    : Option<Intent>
    requires window.Some? ==> Valid(window.value)
  {
    if CoolingDown(last, now) || window.None? then None
    else
      var t := window.value;
      if NodesWithText(t, SuccessText(app)) == [] then None
      else
        match MatchAmount(app, AllText(t, Root))
        case None => None
        case Some(amount) => Some(CardIntent(amount, MerchantName(t), PayMethod(app), nowAtShow))
  }

  /** What the service does with one event. */
  function Detect(last: Long, ev: Event, window: Option<Tree>, now: Long, nowAtShow: Long)
    : Option<Intent>
    requires window.Some? ==> Valid(window.value)
  {
    match SourceAppOf(ev)
    case None => None
    case Some(app) => Handle(last, app, window, now, nowAtShow)
  }

  class PaymentDetectionService {
    var lastDetectedTime: Long
    /** The intents handed to `startService`, in order. */
    var started: seq<Intent>

    constructor ()
      ensures lastDetectedTime == 0 && started == []
    {
      lastDetectedTime := 0;
      started := [];
    }

    /** `onAccessibilityEvent`: an event either changes nothing, or starts one card and
        sets the cooldown stamp to the clock read at entry. */
    method OnAccessibilityEvent(ev: Event, window: Option<Tree>, now: Long, nowAtShow: Long)
      requires window.Some? ==> Valid(window.value)
      modifies this
      ensures var d := Detect(old(lastDetectedTime), ev, window, now, nowAtShow);
              && (d.None? ==> lastDetectedTime == old(lastDetectedTime) && started == old(started))
              && (d.Some? ==> lastDetectedTime == now && started == old(started) + [d.value])
    {
      if ev.eventType != TypeWindowStateChanged && ev.eventType != TypeWindowContentChanged {
        return;
      }
      if ev.packageName.None? {
        return;
      }
      var packageName := ev.packageName.value;
      if packageName == WechatPackage {
        HandleWechatPayment(window, now, nowAtShow);
      } else if packageName == AlipayPackage {
        HandleAlipayPayment(window, now, nowAtShow);
      }
    }

    /** `handleWechatPayment`. */
    method HandleWechatPayment(window: Option<Tree>, now: Long, nowAtShow: Long)
      requires window.Some? ==> Valid(window.value)
      modifies this
      ensures var d := Handle(old(lastDetectedTime), WeChat, window, now, nowAtShow);
              && (d.None? ==> lastDetectedTime == old(lastDetectedTime) && started == old(started))
              && (d.Some? ==> lastDetectedTime == now && started == old(started) + [d.value])
    {
      var currentTime := now;
      if LongSub(currentTime, lastDetectedTime) < CoolDownTime {
        return;
      }
      if window.None? {
        return;
      }
      var rootNode := window.value;
      var successNodes := NodesWithText(rootNode, WechatPaySuccessText);
      if successNodes == [] {
        return;
      }
      var allText := GetAllText(rootNode, Root);
      AllTextIsPreOrderTexts(rootNode, Root);
      var found := MatchWechat(allText);
      if found.Some? {
        var amount := found.value;
        var merchantName := ExtractMerchantName(rootNode);
        ShowAccountingWindow(amount, merchantName, "微信支付", nowAtShow);
        lastDetectedTime := currentTime;
      }
    }

    /** `handleAlipayPayment`. */
    method HandleAlipayPayment(window: Option<Tree>, now: Long, nowAtShow: Long)
      requires window.Some? ==> Valid(window.value)
      modifies this
      ensures var d := Handle(old(lastDetectedTime), Alipay, window, now, nowAtShow);
              && (d.None? ==> lastDetectedTime == old(lastDetectedTime) && started == old(started))
              && (d.Some? ==> lastDetectedTime == now && started == old(started) + [d.value])
    {
      var currentTime := now;
      if LongSub(currentTime, lastDetectedTime) < CoolDownTime {
        return;
      }
      if window.None? {
        return;
      }
      var rootNode := window.value;
      var successNodes := NodesWithText(rootNode, AlipayPaySuccessText);
      if successNodes == [] {
        return;
      }
      var allText := GetAllText(rootNode, Root);
      AllTextIsPreOrderTexts(rootNode, Root);
      var found := MatchAlipay(allText);
      if found.Some? {
        var amount := found.value;
        var merchantName := ExtractMerchantName(rootNode);
        ShowAccountingWindow(amount, merchantName, "支付宝", nowAtShow);
        lastDetectedTime := currentTime;
      }
    }

    /** `showAccountingWindow`: starts the card service with the detection. */
    method ShowAccountingWindow(amount: string, merchantName: string, payMethod: string,
                                nowAtShow: Long)
      modifies this
      ensures started == old(started) + [CardIntent(amount, merchantName, payMethod, nowAtShow)]
      ensures lastDetectedTime == old(lastDetectedTime)
    {
      started := started + [CardIntent(amount, merchantName, payMethod, nowAtShow)];
    }
  }

  /** Events of another type, without a package, or from another package are ignored. */
  lemma IgnoredEventsDetectNothing(last: Long, ev: Event, window: Option<Tree>, now: Long,
                                   nowAtShow: Long)
    requires window.Some? ==> Valid(window.value)
    requires || (ev.eventType != TypeWindowStateChanged && ev.eventType != TypeWindowContentChanged)
             || ev.packageName.None?
             || (ev.packageName.value != WechatPackage && ev.packageName.value != AlipayPackage)
    ensures Detect(last, ev, window, now, nowAtShow).None?
  {
  }

  /** Within 3000 ms of the last detection, or with the clock set back before it, nothing is
      detected, whichever app the event
      comes from: the stamp is shared. */
  lemma CooldownSharedByBothApps(last: Long, ev: Event, window: Option<Tree>, now: Long,
                                 nowAtShow: Long)
    requires window.Some? ==> Valid(window.value)
    requires 0 <= last && 0 <= now < last + CoolDownTime
    ensures Detect(last, ev, window, now, nowAtShow).None?
  {
    ClockDifferenceExact(now, last);
  }

  /** Two events from the two apps less than 3000 ms apart, or with the clock set back
      between them, yield at most one card. */
  lemma AtMostOneCardPerCooldown(last: Long, ev1: Event, ev2: Event, w1: Option<Tree>,
                                 w2: Option<Tree>, now1: Long, now2: Long, show1: Long,
                                 show2: Long)
    requires (w1.Some? ==> Valid(w1.value)) && (w2.Some? ==> Valid(w2.value))
    requires 0 <= last && 0 <= now1 && 0 <= now2 < now1 + CoolDownTime
    ensures var d1 := Detect(last, ev1, w1, now1, show1);
            var last1 := if d1.Some? then now1 else last;
            d1.None? || Detect(last1, ev2, w2, now2, show2).None?
  {
    if Detect(last, ev1, w1, now1, show1).Some? {
      CooldownSharedByBothApps(now1, ev2, w2, now2, show2);
    }
  }

  /** The cooldown stamp starts at 0, so right after the epoch nothing is detected. */
  lemma InitialStampBlocksEarlyClock(ev: Event, window: Option<Tree>, now: Long, nowAtShow: Long)
    requires window.Some? ==> Valid(window.value)
    requires 0 <= now < CoolDownTime
    ensures Detect(0, ev, window, now, nowAtShow).None?
  {
    CooldownSharedByBothApps(0, ev, window, now, nowAtShow);
  }

  /** A card is started exactly when every check passes: a known app, no cooldown, a
      window, a node with the success text, and a match of the app's amount pattern in the
      window text. */
  lemma DetectExactly(last: Long, ev: Event, window: Option<Tree>, now: Long, nowAtShow: Long)
    requires window.Some? ==> Valid(window.value)
    ensures Detect(last, ev, window, now, nowAtShow).Some? <==>
              && SourceAppOf(ev).Some?
              && !CoolingDown(last, now)
              && window.Some?
              && NodesWithText(window.value, SuccessText(SourceAppOf(ev).value)) != []
              && MatchAmount(SourceAppOf(ev).value, AllText(window.value, Root)).Some?
  {
  }

  /** What a detection carries: an amount matched by the app's pattern (digits and at most
      one '.', leading digit), the merchant the label heuristic finds, the app's pay method
      and the clock read when the card is started. The success text also occurs in the
      concatenated window text. */
  lemma DetectionContents(last: Long, ev: Event, window: Option<Tree>, now: Long,
                          nowAtShow: Long)
    requires window.Some? ==> Valid(window.value)
    requires Detect(last, ev, window, now, nowAtShow).Some?
    ensures var i := Detect(last, ev, window, now, nowAtShow).value;
            var app := SourceAppOf(ev).value;
            var t := window.value;
            && i.amount == MatchAmount(app, AllText(t, Root))
            && AmountShape(i.amount.value)
            && i.merchant == Some(MerchantName(t))
            && i.payMethod == Some(if ev.packageName == Some(WechatPackage) then "微信支付" else "支付宝")
            && i.time == Some(nowAtShow)
            && Contains(AllText(t, Root), "支付成功")
  {
    var app := SourceAppOf(ev).value;
    NodeTextInAllText(window.value, SuccessText(app));
  }

  /** A detected payment, confirmed, is stored with the matched amount as it reads, so a
      nonzero payment becomes a positive amount and counts as income. */
  lemma DetectedPaymentSavedAsIncome(last: Long, ev: Event, window: Option<Tree>, now: Long,
                                     nowAtShow: Long)
    requires window.Some? ==> Valid(window.value)
    requires Detect(last, ev, window, now, nowAtShow).Some?
    ensures var a := Detect(last, ev, window, now, nowAtShow).value.amount;
            SavedAmount(a).mantissa >= 0 &&
            (SavedAmount(a).mantissa > 0 <==> HasNonzeroDigit(a.value))
  {
    var a := Detect(last, ev, window, now, nowAtShow).value.amount;
    CapturedPaymentStoredPositive(a.value);
    ParseAmountShape(a.value);
  }
}
