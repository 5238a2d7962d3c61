/** One payment followed from the WeChat success page to the stored record. */
module PaymentScenario {
  import opened Base
  import opened AccessibilityTree
  import opened AmountPatterns
  import opened DecimalAmount
  import opened MerchantExtraction
  import opened CategoryClassification
  import opened FloatingRecord
  import opened PaymentDetection

  /** A WeChat success page: the success text, the amount, and a "merchant:" label next
      to the merchant's name inside a row. */
  function WechatPage(): Tree {
    [Node(None, None, [Some(1), Some(2), Some(3)]),
     Node(Some("支付成功"), Some(0), []),
     Node(Some("¥88.00"), Some(0), []),
     Node(None, Some(0), [Some(4), Some(5)]),
     Node(Some("商户:"), Some(3), []),
     Node(Some("星巴克咖啡"), Some(3), [])]
  }

  lemma WechatPageValid()
    ensures Valid(WechatPage())
  {
    var t := WechatPage();
    assert NodeValid(t, 0);
    assert NodeValid(t, 1);
    assert NodeValid(t, 2);
    assert NodeValid(t, 3);
    assert NodeValid(t, 4);
    assert NodeValid(t, 5);
  }

  lemma WechatPageRowOrder()
    ensures Valid(WechatPage())
    ensures PreOrder(WechatPage(), 3) == [3, 4, 5]
  {
    var t := WechatPage();
    WechatPageValid();
    assert PreOrder(t, 4) == [4];
    assert PreOrder(t, 5) == [5];
    assert ChildrenOrder(t, 3, 1) == [4];
    assert ChildrenOrder(t, 3, 2) == [4, 5];
  }

  lemma WechatPageFirstChildrenOrder()
    ensures Valid(WechatPage())
    ensures ChildrenOrder(WechatPage(), 0, 2) == [1, 2]
  {
    var t := WechatPage();
    WechatPageValid();
    assert PreOrder(t, 1) == [1];
    assert PreOrder(t, 2) == [2];
    assert ChildrenOrder(t, 0, 1) == [1];
  }

  lemma WechatPageOrder()
    ensures Valid(WechatPage())
    ensures PreOrder(WechatPage(), Root) == [0, 1, 2, 3, 4, 5]
  {
    var t := WechatPage();
    WechatPageRowOrder();
    WechatPageFirstChildrenOrder();
    assert ChildrenOrder(t, 0, 3) == [1, 2] + [3, 4, 5];
    assert [1, 2] + [3, 4, 5] == [1, 2, 3, 4, 5];
  }

  lemma WechatPageRowText()
    ensures Valid(WechatPage())
    ensures AllText(WechatPage(), 3) == "商户:星巴克咖啡"
  {
    var t := WechatPage();
    WechatPageValid();
    assert AllText(t, 4) == "商户:";
    assert AllText(t, 5) == "星巴克咖啡";
    assert ChildrenText(t, 3, 1) == "商户:";
    assert ChildrenText(t, 3, 2) == "商户:星巴克咖啡";
  }

  lemma WechatPageText()
    ensures Valid(WechatPage())
    ensures AllText(WechatPage(), Root) == "支付成功¥88.00商户:星巴克咖啡"
  {
    var t := WechatPage();
    WechatPageRowText();
    assert AllText(t, 1) == "支付成功";
    assert AllText(t, 2) == "¥88.00";
    assert ChildrenText(t, 0, 1) == "支付成功";
    assert ChildrenText(t, 0, 2) == "支付成功¥88.00";
    assert ChildrenText(t, 0, 3) == "支付成功¥88.00商户:星巴克咖啡";
  }

  /** The page's WeChat amount is "88.00". */
  lemma WechatPageAmount()
    ensures MatchWechat("支付成功¥88.00商户:星巴克咖啡") == Some("88.00")
  {
    var s := "支付成功¥88.00商户:星巴克咖啡";
    assert s[5..10] == "88.00";
    assert AmountShape(s[5..10]);
    assert !IsDigit(s[5..11][5]);
    assert LongestAmountAt(s, 5, 5);
    assert forall q :: 0 <= q < 4 ==> s[q] != CurrencySign;
    assert WechatFirstMatch(s, 4, 5);
    WechatMatchDeterministic(s, 4, 5);
  }

  /** Only node 4 carries the label "商户:". */
  lemma WechatPageLabelled()
    ensures Valid(WechatPage())
    ensures NodesWithText(WechatPage(), MerchantLabels[0]) == [4]
  {
    var t := WechatPage();
    WechatPageOrder();
    var marker := MerchantLabels[0];
    assert marker == "商户:";
    NotContainsAbsentChar("支付成功", marker, 0);
    NotContainsAbsentChar("¥88.00", marker, 0);
    NotContainsAbsentChar("星巴克咖啡", marker, 0);
    ContainsSelf(marker);
    assert Matching(t, [5], marker) == [];
    assert Matching(t, [4, 5], marker) == [4];
    assert Matching(t, [3, 4, 5], marker) == [4];
    assert Matching(t, [2, 3, 4, 5], marker) == [4];
    assert Matching(t, [1, 2, 3, 4, 5], marker) == [4];
  }

  /** The labelled node's row neighbour names the merchant. */
  lemma WechatPageMerchant()
    ensures Valid(WechatPage())
    ensures MerchantName(WechatPage()) == "星巴克咖啡"
  {
    var t := WechatPage();
    WechatPageLabelled();
    assert !IsSiblingWithText(t, 3, 4, 0);
    assert SiblingTextFrom(t, 3, 4, 0) == Some("星巴克咖啡");
    assert SiblingText(t, 4) == Some("星巴克咖啡");
    assert NodeYields(t, [4]) == [Some("星巴克咖啡")];
    FirstLabelWins(t);
  }

  /** The page has a node with the success text. */
  lemma WechatPageSuccess()
    ensures Valid(WechatPage())
    ensures NodesWithText(WechatPage(), WechatPaySuccessText) != []
  {
    var t := WechatPage();
    WechatPageOrder();
    ContainsSelf(WechatPaySuccessText);
    assert HasText(t[1], WechatPaySuccessText);
    assert 1 in PreOrder(t, Root);
  }

  /** A window event from WeChat showing the page, outside the cooldown, starts a card for
      88.00 at Starbucks paid with WeChat Pay. */
  lemma WechatPageDetected(last: Long, now: Long, nowAtShow: Long)
    requires 0 <= last && last + CoolDownTime <= now
    ensures Valid(WechatPage())
    ensures Detect(last, Event(TypeWindowStateChanged, Some(WechatPackage)), Some(WechatPage()),
                   now, nowAtShow)
            == Some(Intent(Some("88.00"), Some("星巴克咖啡"), Some("微信支付"), Some(nowAtShow)))
  {
    var t := WechatPage();
    var ev := Event(TypeWindowStateChanged, Some(WechatPackage));
    WechatPageText();
    WechatPageAmount();
    WechatPageMerchant();
    WechatPageSuccess();
    ClockDifferenceExact(now, last);
    assert SourceAppOf(ev) == Some(WeChat);
    DetectExactly(last, ev, Some(t), now, nowAtShow);
    DetectionContents(last, ev, Some(t), now, nowAtShow);
  }

  /** The whole pipeline on that page: the detection service starts a card, the card is
      confirmed, and the stored record holds 88.00 as a positive amount, categorised as
      food because the name contains "咖啡". */
  method WechatPaymentRecorded(now: Long, nowAtShow: Long, id: string)
    returns (record: ExpenseRecord)
    requires CoolDownTime <= now
    ensures record == ExpenseRecord(id, Decimal(8800, 2), "餐饮", "星巴克咖啡", "微信支付",
                                    nowAtShow, "")
    ensures CountsAsIncome(record)
  {
    var detector := new PaymentDetectionService();
    WechatPageDetected(0, now, nowAtShow);
    detector.OnAccessibilityEvent(Event(TypeWindowStateChanged, Some(WechatPackage)),
                                  Some(WechatPage()), now, nowAtShow);
    var intent := detector.started[0];
    var classifier := new CategoryClassifier();
    var card := new FloatingRecordService(classifier);
    card.OnStartCommand(Some(intent), now);
    card.Confirm(card.floatingView.value, id, false);
    record := card.inserted[0];
    ParseAmountExamples();
    CoffeeShopIsFood();
  }
}
