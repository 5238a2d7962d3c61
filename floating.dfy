/** The confirmation card service. Each start command fills the session fields from the
    intent and shows a new card; the card's confirm button saves one expense record and asks
    the service to stop, its cancel button only asks to stop, and a 10 s timer asks to stop
    while the card is still attached. Stopping is a request; the teardown (`onDestroy`)
    removes the latest card. */
module FloatingRecord {
  import opened Base
  import opened DecimalAmount
  import opened AmountPatterns
  import opened CategoryClassification

  /** The extras of the start intent; each one may be absent. */
  datatype Intent = Intent(amount: Option<string>, merchant: Option<string>,
                           payMethod: Option<string>, time: Option<Long>)

  /** The stored expense record. Its date is kept as the milliseconds `Date(time)` wraps. */
  datatype ExpenseRecord = ExpenseRecord(id: string, amount: Decimal, category: string,
                                         merchant: string, payMethod: string, date: Long,
                                         remark: string)

  /** What a card shows: amount, merchant, predicted category and the time it carries. */
  datatype Card = Card(amount: Option<string>, merchant: Option<string>, category: string,
                       date: Long)

  /** The amount `saveRecord` stores: the text converted as it stands, with no change of
      sign, or 0 when it is absent or not a number. */
  function SavedAmount(amount: Option<string>): Decimal {
    if amount.Some? && ParseAmount(amount.value).Some? then ParseAmount(amount.value).value
    else Zero
  }

  /** The rule the monthly summaries apply: a positive amount is income, anything else an
      expense. */
  predicate CountsAsIncome(r: ExpenseRecord) {
    r.amount.mantissa > 0
  }

  /** Manual entries store the typed amount negated, so that they count as expenses. */
  function ManualEntryAmount(typed: Decimal): Decimal {
    Decimal(-typed.mantissa, typed.scale)
  }

  /** The stored amount never has a sign the text does not have: a missing or unparseable
      text gives 0, and a negative amount comes only from a text that starts with '-'. */
  lemma SavedAmountKeepsSign(amount: Option<string>)
    ensures amount.None? ==> SavedAmount(amount) == Zero
    ensures SavedAmount(amount).mantissa < 0 ==> amount.Some? && amount.value[0] == '-'
  {
  }

  /** A captured amount (what either amount pattern returns) with a digit other than 0 is
      stored as a positive number, so the payment is counted as income; a zero amount is
      stored as 0. */
  lemma CapturedPaymentStoredPositive(g: string)
    requires AmountShape(g)
    ensures SavedAmount(Some(g)).mantissa > 0 <==> HasNonzeroDigit(g)
    ensures SavedAmount(Some(g)) == ParseAmount(g).value
  {
    ParseAmountShape(g);
  }

  /** The same positive amount typed by hand is an expense. */
  lemma ManualEntryIsExpense(typed: Decimal)
    requires typed.mantissa > 0
    ensures ManualEntryAmount(typed).mantissa < 0
  {
  }

  /** The running service and the cards it has put on screen. Cards are numbered in the
      order they are inflated. */
  class FloatingRecordService {
    /** The session fields `amount`, `merchant`, `payMethod`, `time`. */
    var amount: Option<string>
    var merchant: Option<string>
    var payMethod: Option<string>
    var time: Long
    /** `floatingView`: `None` until the first card is inflated, then the latest card. */
    var floatingView: Option<nat>
    /** The number of cards inflated so far. */
    var inflated: nat
    /** What each inflated card shows. */
    var cards: map<nat, Card>
    /** The cards currently added to the window manager. */
    var attached: set<nat>
    /** Auto-close callbacks posted and not yet run. */
    var pendingTimeouts: nat
    /** The number of `stopSelf` calls. */
    var stopRequests: nat
    /** The records handed to the repository's insert, in order. */
    var inserted: seq<ExpenseRecord>
    /** The process-wide classifier. */
    const classifier: CategoryClassifier

    ghost predicate Valid()
      reads this
    {
      && (forall v: nat :: v in cards <==> v < inflated)
      && (forall v :: v in attached ==> v < inflated)
      && (floatingView.None? <==> inflated == 0)
      && (floatingView.Some? ==> floatingView.value == inflated - 1)
    }

    /** `onCreate`: nothing shown, nothing saved. */
    constructor (classifier: CategoryClassifier)
      ensures Valid()
      ensures this.classifier == classifier
      ensures amount.None? && merchant.None? && payMethod.None? && time == 0
      ensures floatingView.None? && attached == {} && pendingTimeouts == 0
      ensures stopRequests == 0 && inserted == []
    {
      this.classifier := classifier;
      amount, merchant, payMethod, time := None, None, None, 0;
      floatingView, inflated, cards, attached := None, 0, map[], {};
      pendingTimeouts, stopRequests, inserted := 0, 0, [];
    }

    /** `onStartCommand`: a missing intent changes nothing. Otherwise the fields take the
        intent's extras, the time defaulting to `now`, and a new card showing them is
        inflated, gets its timer and is attached; a card shown before stays attached but
        is no longer tracked. */
    method OnStartCommand(intent: Option<Intent>, now: Long)
      requires Valid()
      modifies this, classifier
      ensures Valid()
      ensures intent.None? ==>
                && amount == old(amount) && merchant == old(merchant)
                && payMethod == old(payMethod) && time == old(time)
                && floatingView == old(floatingView) && cards == old(cards)
                && attached == old(attached) && pendingTimeouts == old(pendingTimeouts)
                && classifier.cache == old(classifier.cache)
      ensures intent.Some? ==>
                && amount == intent.value.amount && merchant == intent.value.merchant
                && payMethod == intent.value.payMethod && time == intent.value.time.GetOr(now)
                && floatingView == Some(old(inflated))
                && attached == old(attached) + {old(inflated)}
                && pendingTimeouts == old(pendingTimeouts) + 1
                && cards == old(cards)[old(inflated) := Card(amount, merchant,
                              Predict(old(classifier.cache), merchant.GetOr("")), time)]
                && classifier.cache == old(classifier.cache)[merchant.GetOr("") :=
                                         Predict(old(classifier.cache), merchant.GetOr(""))]
      ensures stopRequests == old(stopRequests) && inserted == old(inserted)
    {
      if intent.Some? {
        amount := intent.value.amount;
        merchant := intent.value.merchant;
        payMethod := intent.value.payMethod;
        time := intent.value.time.GetOr(now);
        ShowFloatingWindow();
      }
    }

    /** `showFloatingWindow`: inflate a card, fill it in, add it to the window manager. */
    method ShowFloatingWindow()
      requires Valid()
      modifies this, classifier
      ensures Valid()
      ensures amount == old(amount) && merchant == old(merchant)
      ensures payMethod == old(payMethod) && time == old(time)
      ensures floatingView == Some(old(inflated))
      ensures attached == old(attached) + {old(inflated)}
      ensures pendingTimeouts == old(pendingTimeouts) + 1
      ensures cards == old(cards)[old(inflated) := Card(amount, merchant,
                         Predict(old(classifier.cache), merchant.GetOr("")), time)]
      ensures classifier.cache == old(classifier.cache)[merchant.GetOr("") :=
                                    Predict(old(classifier.cache), merchant.GetOr(""))]
      ensures stopRequests == old(stopRequests) && inserted == old(inserted)
    {
      var view := inflated;
      floatingView := Some(view);
      inflated := inflated + 1;
      InitializeViewContent(view);
      attached := attached + {view};
    }

    /** `initializeViewContent`: the card shows the fields and the predicted category, and
        its auto-close timer is posted. */
    method InitializeViewContent(view: nat)
      requires view == inflated - 1 && view !in cards
      requires forall v: nat :: v in cards <==> v < view
      modifies this, classifier
      ensures cards == old(cards)[view := Card(amount, merchant,
                         Predict(old(classifier.cache), merchant.GetOr("")), time)]
      ensures forall v: nat :: v in cards <==> v < inflated
      ensures classifier.cache == old(classifier.cache)[merchant.GetOr("") :=
                                    Predict(old(classifier.cache), merchant.GetOr(""))]
      ensures pendingTimeouts == old(pendingTimeouts) + 1
      ensures amount == old(amount) && merchant == old(merchant) && payMethod == old(payMethod)
      ensures time == old(time) && floatingView == old(floatingView) && inflated == old(inflated)
      ensures attached == old(attached) && stopRequests == old(stopRequests)
      ensures inserted == old(inserted)
    {
      var category := classifier.PredictCategory(merchant.GetOr(""));
      cards := cards[view := Card(amount, merchant, category, time)];
      pendingTimeouts := pendingTimeouts + 1;
    }

    /** The confirm button of an attached card: save, then ask to stop. A storage failure is
        caught inside `saveRecord` and does not keep the stop request from being made. */
    method Confirm(view: nat, id: string, storageFails: bool)
      requires Valid() && view in attached
      modifies this, classifier
      ensures Valid()
      ensures inserted == old(inserted) +
                (if storageFails then [] else
                   [ExpenseRecord(id, SavedAmount(amount),
                                  Predict(old(classifier.cache), merchant.GetOr("")),
                                  merchant.GetOr(""), payMethod.GetOr(""), time, "")])
      ensures classifier.cache == old(classifier.cache)[merchant.GetOr("") :=
                                    Predict(old(classifier.cache), merchant.GetOr(""))]
      ensures stopRequests == old(stopRequests) + 1
      ensures amount == old(amount) && merchant == old(merchant) && payMethod == old(payMethod)
      ensures time == old(time) && floatingView == old(floatingView) && cards == old(cards)
      ensures attached == old(attached) && pendingTimeouts == old(pendingTimeouts)
    {
      SaveRecord(id, storageFails);
      stopRequests := stopRequests + 1;
    }

    /** `saveRecord`: builds the record from the session fields (absent text becomes "",
        the amount keeps its sign, the category is predicted again) and inserts it, unless
        the repository fails. */
    method SaveRecord(id: string, storageFails: bool)
      requires Valid()
      modifies this, classifier
      ensures Valid()
      ensures inserted == old(inserted) +
                (if storageFails then [] else
                   [ExpenseRecord(id, SavedAmount(amount),
                                  Predict(old(classifier.cache), merchant.GetOr("")),
                                  merchant.GetOr(""), payMethod.GetOr(""), time, "")])
      ensures classifier.cache == old(classifier.cache)[merchant.GetOr("") :=
                                    Predict(old(classifier.cache), merchant.GetOr(""))]
      ensures amount == old(amount) && merchant == old(merchant) && payMethod == old(payMethod)
      ensures time == old(time) && floatingView == old(floatingView) && cards == old(cards)
      ensures attached == old(attached) && pendingTimeouts == old(pendingTimeouts)
      ensures stopRequests == old(stopRequests)
    {
      var category := classifier.PredictCategory(merchant.GetOr(""));
      var record := ExpenseRecord(id, SavedAmount(amount), category, merchant.GetOr(""),
                                  payMethod.GetOr(""), time, "");
      if !storageFails {
        inserted := inserted + [record];
      }
    }

    /** The cancel button of an attached card: only a stop request. */
    method Cancel(view: nat)
      requires Valid() && view in attached
      modifies this
      ensures Valid()
      ensures stopRequests == old(stopRequests) + 1
      ensures inserted == old(inserted) && attached == old(attached)
      ensures amount == old(amount) && merchant == old(merchant) && payMethod == old(payMethod)
      ensures time == old(time) && floatingView == old(floatingView) && cards == old(cards)
      ensures pendingTimeouts == old(pendingTimeouts)
    {
      stopRequests := stopRequests + 1;
    }

    /** One posted auto-close callback runs: it never saves, and asks to stop only while the
        latest card is attached. */
    method Timeout()
      requires Valid() && pendingTimeouts > 0
      modifies this
      ensures Valid()
      ensures pendingTimeouts == old(pendingTimeouts) - 1
      ensures stopRequests == old(stopRequests) +
                (if floatingView.Some? && floatingView.value in attached then 1 else 0)
      ensures inserted == old(inserted) && attached == old(attached)
      ensures amount == old(amount) && merchant == old(merchant) && payMethod == old(payMethod)
      ensures time == old(time) && floatingView == old(floatingView) && cards == old(cards)
    {
      pendingTimeouts := pendingTimeouts - 1;
      if floatingView.Some? && floatingView.value in attached {
        stopRequests := stopRequests + 1;
      }
    }

    /** `onDestroy`: removes the latest card when there is one and it is attached; earlier
        cards are left where they are. */
    method OnDestroy()
      requires Valid()
      modifies this
      ensures Valid()
      ensures attached == if floatingView.Some? then old(attached) - {floatingView.value}
                          else old(attached)
      ensures inserted == old(inserted) && stopRequests == old(stopRequests)
      ensures amount == old(amount) && merchant == old(merchant) && payMethod == old(payMethod)
      ensures time == old(time) && floatingView == old(floatingView) && cards == old(cards)
      ensures pendingTimeouts == old(pendingTimeouts)
    {
      if floatingView.Some? && floatingView.value in attached {
        attached := attached - {floatingView.value};
      }
    }
  }

  /** Whatever the classifier remembers already, and unless it is corrected in between, the
      category a new card shows and the one its confirm saves agree, since the first
      prediction is remembered. */
  method ShownCategoryIsSaved(s: FloatingRecordService, intent: Intent, now: Long, id: string)
    returns (shown: string, saved: string)
    requires s.Valid()
    modifies s, s.classifier
    ensures s.floatingView.Some? && s.floatingView.value in s.cards && |s.inserted| > 0
    ensures shown == s.cards[s.floatingView.value].category
    ensures saved == s.inserted[|s.inserted| - 1].category
    ensures shown == saved
    ensures saved == Predict(old(s.classifier.cache), intent.merchant.GetOr(""))
  {
    s.OnStartCommand(Some(intent), now);
    var view := s.floatingView.value;
    shown := s.cards[view].category;
    s.Confirm(view, id, false);
    saved := s.inserted[|s.inserted| - 1].category;
  }

  /** With a classifier that remembers nothing yet, both are the keyword category. */
  method FreshCardShowsKeywordCategory(intent: Intent, now: Long, id: string)
    returns (shown: string, saved: string)
    ensures shown == saved
    ensures saved == KeywordCategory(intent.merchant.GetOr(""))
  {
    var c := new CategoryClassifier();
    var s := new FloatingRecordService(c);
    s.OnStartCommand(Some(intent), now);
    var view := s.floatingView.value;
    shown := s.cards[view].category;
    s.Confirm(view, id, false);
    saved := s.inserted[0].category;
  }

  /** A confirmed card saves exactly one record built from the intent: the amount as the
      text converts, the merchant and pay method, the intent's time, no remark. */
  method ConfirmSavesIntent(intent: Intent, now: Long, id: string)
    returns (records: seq<ExpenseRecord>)
    ensures |records| == 1
    ensures records[0].id == id && records[0].remark == ""
    ensures records[0].amount == SavedAmount(intent.amount)
    ensures records[0].merchant == intent.merchant.GetOr("")
    ensures records[0].payMethod == intent.payMethod.GetOr("")
    ensures records[0].date == intent.time.GetOr(now)
  {
    var c := new CategoryClassifier();
    var s := new FloatingRecordService(c);
    s.OnStartCommand(Some(intent), now);
    s.Confirm(s.floatingView.value, id, false);
    records := s.inserted;
  }

  /** Cancelling or letting the card time out saves nothing; both ask once to stop. */
  method CancelAndTimeoutSaveNothing(intent: Intent, now: Long)
    returns (afterCancel: nat, afterTimeout: nat, stops: nat)
    ensures afterCancel == 0 && afterTimeout == 0 && stops == 1
  {
    var c := new CategoryClassifier();
    var s := new FloatingRecordService(c);
    s.OnStartCommand(Some(intent), now);
    s.Cancel(s.floatingView.value);
    afterCancel := |s.inserted|;
    var t := new FloatingRecordService(c);
    t.OnStartCommand(Some(intent), now);
    t.Timeout();
    afterTimeout := |t.inserted|;
    stops := t.stopRequests;
  }

  /** A timer that runs after teardown finds the card gone and does nothing more. */
  method TimeoutAfterDestroyIsQuiet(intent: Intent, now: Long) returns (stops: nat)
    ensures stops == 0
  {
    var c := new CategoryClassifier();
    var s := new FloatingRecordService(c);
    s.OnStartCommand(Some(intent), now);
    s.OnDestroy();
    s.Timeout();
    stops := s.stopRequests;
  }

  /** Nothing marks a session as finished: stopping is only a request, so a second click on
      confirm before the teardown saves a second record. */
  method DoubleConfirmSavesTwice(intent: Intent, now: Long) returns (saves: nat)
    ensures saves == 2
  {
    var c := new CategoryClassifier();
    var s := new FloatingRecordService(c);
    s.OnStartCommand(Some(intent), now);
    var view := s.floatingView.value;
    s.Confirm(view, "first", false);
    s.Confirm(view, "second", false);
    saves := |s.inserted|;
  }

  /** A second start command replaces the tracked card, so the teardown removes only the
      second one and the first stays on screen. */
  method SecondStartLeavesFirstCard(first: Intent, second: Intent, now: Long)
    returns (leftOnScreen: set<nat>)
    ensures leftOnScreen == {0}
  {
    var c := new CategoryClassifier();
    var s := new FloatingRecordService(c);
    s.OnStartCommand(Some(first), now);
    s.OnStartCommand(Some(second), now);
    s.OnDestroy();
    leftOnScreen := s.attached;
  }

  /** A start command without an intent shows nothing. */
  method NullIntentShowsNothing(now: Long) returns (shown: set<nat>, timers: nat)
    ensures shown == {} && timers == 0
  {
    var c := new CategoryClassifier();
    var s := new FloatingRecordService(c);
    s.OnStartCommand(None, now);
    shown := s.attached;
    timers := s.pendingTimeouts;
  }
}
