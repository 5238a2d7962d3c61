# Payment auto-capture of the Accounting app, modelled in Dafny

This project models the payment auto-capture pipeline of the Android bookkeeping app
Accounting. It has three parts.

- **The detection service** (`PaymentDetectionService`) listens to accessibility events.
  It keeps only window-state and window-content events from WeChat (`com.tencent.mm`) and
  Alipay (`com.eg.android.AlipayGphone`). It waits out one 3000 ms cooldown that both apps
  share. It then asks for a node of the active window whose text contains "支付成功", and
  applies the app's amount pattern to the concatenated window text: `¥([0-9]+\.?[0-9]*)`
  for WeChat, `([0-9]+\.?[0-9]*)元` for Alipay. It finds the merchant with a labelled-sibling
  heuristic. Then it starts the confirmation card and stamps the cooldown.
- **The category classifier** (`CategoryClassifier`) is an ordered keyword table tried by
  substring containment. It sits behind a merchant-to-category cache that remembers the
  first answer and that user corrections overwrite.
- **The confirmation card** (`FloatingRecordService`) is filled from the start intent. It
  has confirm, cancel and a 10 s auto-close. On confirm it builds one `ExpenseRecord` and
  hands it to the repository.

How the model is built:

- The window is a finite node table (`AccessibilityTree.Tree`): optional text, a parent
  index and child slots.
- Both regexes are hand-written leftmost-first matchers. They are proved to return the
  group of the leftmost match, which is the greedy (longest) amount at that start.
- `toDoubleOrNull` is an exact decimal (`DecimalAmount.Decimal`).
- The clock, the UUID and the repository's failure are parameters. The started intents,
  the cards on screen, the stop requests and the repository inserts are recorded in fields.
- The three services are classes whose methods are proved against pure functions.
  `Detect` specifies one event; `Predict` specifies one classification.
- `PaymentScenario` follows one WeChat success page through the whole pipeline to the
  stored record.

**Sign policy.** The card stores the amount as the text reads, with no negation. The model
keeps this. Manual entries store the typed amount negated. The monthly summary counts a
positive amount as income. So an auto-captured payment with a nonzero amount counts as
income (`FloatingRecord.CapturedPaymentStoredPositive`,
`PaymentDetection.DetectedPaymentSavedAsIncome`, `PaymentScenario.WechatPaymentRecorded`),
while the same amount typed by hand counts as an expense
(`FloatingRecord.ManualEntryIsExpense`).

**Behaviour of the code worth knowing (the model follows it):**

- A sibling of a merchant label is taken when its text is not null, so a sibling whose
  text is empty becomes the merchant name (`MerchantExtraction.EmptyNeighbourTextIsTaken`).
- Nothing marks a session as finished:
  - `stopSelf` is only a request;
  - the auto-close timer stays posted after confirm or cancel;
  - a second confirm before the teardown saves a second record
    (`FloatingRecord.DoubleConfirmSavesTwice`).
- The auto-close timer asks to stop only while the latest card is attached
  (`FloatingRecord.FloatingRecordService.Timeout`, `FloatingRecord.TimeoutAfterDestroyIsQuiet`).
- A second start command replaces the tracked card without removing the first one, and
  the teardown removes only the latest (`FloatingRecord.SecondStartLeavesFirstCard`).
- Captured payments are stored as positive amounts (sign policy above).
- The success text is not looked for in the concatenated text. The host is asked for
  nodes whose own text contains it, so a phrase split over two nodes is not found
  (`AccessibilityTree.SplitPhraseFoundOnlyInAllText`).

## Model

Source paths are relative to the repository root.

| member | source | states |
|---|---|---|
| Base.LongSub | app/src/main/java/com/example/accounting/services/accessibility/PaymentDetectionService.kt:65 | `currentTime - lastDetectedTime` on `Long`s: congruent to the exact difference modulo 2^64, and equal to it when it fits |
| Base.ClockDifferenceExact | app/src/main/java/com/example/accounting/services/accessibility/PaymentDetectionService.kt:103 | for two non-negative clock readings the cooldown subtraction does not wrap |
| AccessibilityTree.AllText | app/src/main/java/com/example/accounting/services/accessibility/PaymentDetectionService.kt:138-152 | the recursive `getAllText`: the node's own text, then each present child's subtree text in slot order; equal to the pre-order concatenation (AllTextIsPreOrderTexts) and the value `GetAllText` computes |
| AccessibilityTree.GetAllText | app/src/main/java/com/example/accounting/services/accessibility/PaymentDetectionService.kt:138-152 | the text built is the own texts of the subtree's nodes (absent text contributing nothing, absent children skipped) concatenated in pre-order |
| AccessibilityTree.AllTextIsPreOrderTexts | app/src/main/java/com/example/accounting/services/accessibility/PaymentDetectionService.kt:138-152 | the recursive definition (own text, then each child's text in slot order) equals the pre-order concatenation |
| AccessibilityTree.ChildrenTextIsPreOrderTexts | app/src/main/java/com/example/accounting/services/accessibility/PaymentDetectionService.kt:145-149 | the texts of the first k child subtrees equal the concatenation over their pre-orders |
| AccessibilityTree.PreOrder | app/src/main/java/com/example/accounting/services/accessibility/PaymentDetectionService.kt:138-152 | the traversal starts at the node itself and stays inside the window |
| AccessibilityTree.Matching | app/src/main/java/com/example/accounting/services/accessibility/PaymentDetectionService.kt:74 | a node is in the search result exactly when it is listed and its text is present and contains the needle; the result is no longer than the list |
| AccessibilityTree.MatchingAppend | app/src/main/java/com/example/accounting/services/accessibility/PaymentDetectionService.kt:166-167 | searching a concatenation of lists gives the results for the first list followed by those for the second, so matches come out in list order |
| AccessibilityTree.MatchingFirst | app/src/main/java/com/example/accounting/services/accessibility/PaymentDetectionService.kt:166-167 | the first node found is the first listed node whose text contains the needle |
| AccessibilityTree.NodesWithText | app/src/main/java/com/example/accounting/services/accessibility/PaymentDetectionService.kt:74 | `findAccessibilityNodeInfosByText`: a node is found exactly when it is in the window's traversal and its text contains the needle; the order is the traversal order (MatchingAppend) |
| AccessibilityTree.NodeTextInAllText | app/src/main/java/com/example/accounting/services/accessibility/PaymentDetectionService.kt:74-80 | when some node's text contains a phrase, the concatenated window text contains it too |
| AccessibilityTree.SplitPhraseFoundOnlyInAllText | app/src/main/java/com/example/accounting/services/accessibility/PaymentDetectionService.kt:74-77 | the converse fails: "支付成功" split over two nodes is in the concatenated text while the per-node search finds nothing |
| AmountPatterns.GreedyAmount | app/src/main/java/com/example/accounting/services/accessibility/PaymentDetectionService.kt:22 | greedy `[0-9]+\.?[0-9]*` from a digit covers the longest amount-shaped text starting there |
| AmountPatterns.LongestAmountUnique | app/src/main/java/com/example/accounting/services/accessibility/PaymentDetectionService.kt:22 | at one start there is only one longest amount |
| AmountPatterns.FindWechat | app/src/main/java/com/example/accounting/services/accessibility/PaymentDetectionService.kt:81-82 | `find()`: the reported match is a match and none starts earlier; no result means no match at or after the start |
| AmountPatterns.MatchWechat | app/src/main/java/com/example/accounting/services/accessibility/PaymentDetectionService.kt:81-83 | no result exactly when the WeChat pattern has no match; otherwise group 1 of the leftmost match, a digit first, then digits with at most one '.' |
| AmountPatterns.WechatMatchDeterministic | app/src/main/java/com/example/accounting/services/accessibility/PaymentDetectionService.kt:81-83 | whatever match is leftmost, its group is what is returned |
| AmountPatterns.WechatExample | app/src/main/java/com/example/accounting/services/accessibility/PaymentDetectionService.kt:22 | "支付成功¥88.00" gives "88.00" |
| AmountPatterns.AlipayGroupIsLongest | app/src/main/java/com/example/accounting/services/accessibility/PaymentDetectionService.kt:27 | the group before '元' is the longest amount at its start, since '元' is neither a digit nor '.' |
| AmountPatterns.FindAlipay | app/src/main/java/com/example/accounting/services/accessibility/PaymentDetectionService.kt:119-120 | `find()` for the Alipay pattern: a match with no earlier match, or no match at all |
| AmountPatterns.MatchAlipay | app/src/main/java/com/example/accounting/services/accessibility/PaymentDetectionService.kt:119-121 | no result exactly when `([0-9]+\.?[0-9]*)元` has no match; otherwise the amount-shaped group right before '元' of the leftmost match |
| AmountPatterns.AlipayMatchDeterministic | app/src/main/java/com/example/accounting/services/accessibility/PaymentDetectionService.kt:119-121 | the leftmost Alipay match's group is what is returned |
| AmountPatterns.AlipayExample | app/src/main/java/com/example/accounting/services/accessibility/PaymentDetectionService.kt:27 | "支付成功35.50元" gives "35.50" |
| AmountPatterns.AlipaySecondDotExample | app/src/main/java/com/example/accounting/services/accessibility/PaymentDetectionService.kt:27 | "1.2.3元" gives "2.3": the leftmost start whose amount ends right at '元' |
| DecimalAmount.DigitsValuePositive | app/src/main/java/com/example/accounting/services/accessibility/FloatingRecordService.kt:153 | a digit string denotes a positive number exactly when one of its digits is not 0 |
| DecimalAmount.DigitsValueAppend | app/src/main/java/com/example/accounting/services/accessibility/FloatingRecordService.kt:153 | the value of digits `a` followed by digits `b` is the value of `a` times ten to the length of `b`, plus the value of `b` |
| DecimalAmount.ParseUnsignedValue | app/src/main/java/com/example/accounting/services/accessibility/FloatingRecordService.kt:153 | an unsigned decimal that converts is worth its whole digits times ten to the number of fraction digits plus its fraction digits, over that power of ten |
| DecimalAmount.ParseAmount | app/src/main/java/com/example/accounting/services/accessibility/FloatingRecordService.kt:153 | `toDoubleOrNull` on decimal notation: the empty text is not a number, and a negative value needs a leading '-'; the value an unsigned text converts to is stated by ParseUnsignedValue |
| DecimalAmount.ParseAmountShape | app/src/main/java/com/example/accounting/services/accessibility/FloatingRecordService.kt:153 | every captured amount converts, is never negative, is positive exactly when a digit is not 0, keeps the digits after the '.' as its scale, and has as mantissa the whole digits shifted past the fraction digits plus the fraction digits (so "88.00" is 8800 hundredths) |
| DecimalAmount.ParseAmountExamples | app/src/main/java/com/example/accounting/services/accessibility/FloatingRecordService.kt:153 | "88.00" is 88.00 and "-3.5" is -3.5 |
| DecimalAmount.ParseAmountRejects | app/src/main/java/com/example/accounting/services/accessibility/FloatingRecordService.kt:153 | "." and "12a" are not numbers |
| MerchantExtraction.SiblingTextFrom | app/src/main/java/com/example/accounting/services/accessibility/PaymentDetectionService.kt:170-175 | the text of the first child of the parent, in slot order, that is not the matched node and has a text; none exactly when there is no such child |
| MerchantExtraction.ScanSiblings | app/src/main/java/com/example/accounting/services/accessibility/PaymentDetectionService.kt:169-175 | the inner loop: no result for a node without a parent, otherwise the text of the first other child with a text, or none |
| Base.FirstSomeSpec | app/src/main/java/com/example/accounting/services/accessibility/PaymentDetectionService.kt:165-176 | the first-match search used for both outer loops finds nothing exactly when every candidate fails, and otherwise returns a candidate with only failures before it |
| MerchantExtraction.ScanNodes | app/src/main/java/com/example/accounting/services/accessibility/PaymentDetectionService.kt:166-176 | the loop over one label's matched nodes, in traversal order, returns what the first node with a parent and a sibling text yields, or nothing |
| MerchantExtraction.MerchantName | app/src/main/java/com/example/accounting/services/accessibility/PaymentDetectionService.kt:158-183 | `extractMerchantName` as a function: what the first label that yields a sibling text yields, or "未知商户"; its meaning is stated by NameIsLabelledSibling, NoLabelGivesUnknown and FirstLabelWins, and ExtractMerchantName computes it |
| MerchantExtraction.ExtractMerchantName | app/src/main/java/com/example/accounting/services/accessibility/PaymentDetectionService.kt:158-183 | the outer loop over the labels, with early return, computes the labelled-sibling heuristic: what the first label (in order) that yields a name yields, or the sentinel "未知商户" |
| MerchantExtraction.NoLabelGivesUnknown | app/src/main/java/com/example/accounting/services/accessibility/PaymentDetectionService.kt:182 | with no node carrying any label the result is "未知商户" |
| MerchantExtraction.NameIsLabelledSibling | app/src/main/java/com/example/accounting/services/accessibility/PaymentDetectionService.kt:165-175 | when some label yields a name (the result is not the sentinel fallback), the name is the text of a different child of the parent of a node whose text contains a label |
| MerchantExtraction.FirstLabelWins | app/src/main/java/com/example/accounting/services/accessibility/PaymentDetectionService.kt:163-165 | when "商户:" yields a name, later labels are not consulted |
| MerchantExtraction.EmptyNeighbourTextIsTaken | app/src/main/java/com/example/accounting/services/accessibility/PaymentDetectionService.kt:172-173 | a sibling with empty text qualifies, so the name can come out empty |
| CategoryClassification.KeywordCategory | app/src/main/java/com/example/accounting/services/nlp/CategoryClassifier.kt:60-68 | the answer is "其他" or one of the table's categories; "其他" exactly when no row's keyword is contained; otherwise it is the category of the first row that hits, in both directions (that row's category is returned, and a returned row category belongs to the first hitting row) |
| CategoryClassification.ContainsAnyKeyword | app/src/main/java/com/example/accounting/services/nlp/CategoryClassifier.kt:78-80 | `containsAnyKeyword`: some keyword of the list is a substring of the text |
| CategoryClassification.Predict | app/src/main/java/com/example/accounting/services/nlp/CategoryClassifier.kt:53-73 | the answer of `predictCategory` against a cache: the remembered category, otherwise the keyword category; its properties are PredictIdempotent, CachedWins and PredictTouchesOnlyMerchant |
| CategoryClassification.CategoryClassifier.constructor | app/src/main/java/com/example/accounting/services/nlp/CategoryClassifier.kt:48 | the cache starts empty |
| CategoryClassification.CategoryClassifier.PredictCategory | app/src/main/java/com/example/accounting/services/nlp/CategoryClassifier.kt:53-73 | returns the cached category when there is one and the keyword category otherwise, and afterwards the cache maps the merchant to the answer, the rest unchanged |
| CategoryClassification.CategoryClassifier.UpdateMerchantCategory | app/src/main/java/com/example/accounting/services/nlp/CategoryClassifier.kt:86-88 | the cache maps the merchant to the given category, the rest unchanged |
| CategoryClassification.PredictTouchesOnlyMerchant | app/src/main/java/com/example/accounting/services/nlp/CategoryClassifier.kt:71 | after a prediction every other merchant's entry is as before |
| CategoryClassification.PredictIdempotent | app/src/main/java/com/example/accounting/services/nlp/CategoryClassifier.kt:55-57 | two predictions in a row for the same merchant agree |
| CategoryClassification.CachedWins | app/src/main/java/com/example/accounting/services/nlp/CategoryClassifier.kt:86-88 | after a correction the prediction is the corrected category whatever the keywords say |
| CategoryClassification.KeywordsNonEmpty | app/src/main/java/com/example/accounting/services/nlp/CategoryClassifier.kt:10-45 | every keyword is non-empty |
| CategoryClassification.EmptyMerchantIsOther | app/src/main/java/com/example/accounting/services/nlp/CategoryClassifier.kt:67 | the empty name is classified "其他" |
| CategoryClassification.CoffeeShopIsFood | app/src/main/java/com/example/accounting/services/nlp/CategoryClassifier.kt:78-80 | "星巴克咖啡" is "餐饮" through the contained keyword "咖啡" |
| CategoryClassification.SharedKeywordsGoToShopping | app/src/main/java/com/example/accounting/services/nlp/CategoryClassifier.kt:17-21 | a name containing "药店" or "家具" is never medical or housing: the shopping row comes first |
| FloatingRecord.SavedAmount | app/src/main/java/com/example/accounting/services/accessibility/FloatingRecordService.kt:153 | `amount?.toDoubleOrNull() ?: 0.0`: the converted text, or 0 when it is missing or not a number; stated by SavedAmountKeepsSign and CapturedPaymentStoredPositive |
| FloatingRecord.SavedAmountKeepsSign | app/src/main/java/com/example/accounting/services/accessibility/FloatingRecordService.kt:153 | a missing amount is stored as 0, and a negative amount comes only from a text starting with '-' |
| FloatingRecord.CapturedPaymentStoredPositive | app/src/main/java/com/example/accounting/services/accessibility/FloatingRecordService.kt:153 | a captured amount is stored as it converts, positive exactly when it has a nonzero digit |
| FloatingRecord.ManualEntryAmount | app/src/main/java/com/example/accounting/MainActivity.kt:145 | the typed amount negated; stated by ManualEntryIsExpense |
| FloatingRecord.ManualEntryIsExpense | app/src/main/java/com/example/accounting/MainActivity.kt:145 | a positive amount typed by hand is stored negative |
| FloatingRecord.FloatingRecordService.constructor | app/src/main/java/com/example/accounting/services/accessibility/FloatingRecordService.kt:33-44 | no fields set, no card, nothing saved |
| FloatingRecord.FloatingRecordService.OnStartCommand | app/src/main/java/com/example/accounting/services/accessibility/FloatingRecordService.kt:46-57 | a missing intent changes nothing; otherwise the fields take the extras, the time defaulting to the clock, and a new card becomes the tracked one, is attached and gets a timer |
| FloatingRecord.FloatingRecordService.ShowFloatingWindow | app/src/main/java/com/example/accounting/services/accessibility/FloatingRecordService.kt:73-100 | a fresh card replaces the tracked one and is attached, earlier cards staying attached |
| FloatingRecord.FloatingRecordService.InitializeViewContent | app/src/main/java/com/example/accounting/services/accessibility/FloatingRecordService.kt:105-144 | the card shows amount, merchant, the predicted category and the time, and one auto-close callback is posted |
| FloatingRecord.FloatingRecordService.Confirm | app/src/main/java/com/example/accounting/services/accessibility/FloatingRecordService.kt:128-131 | one save, then one stop request, even when the save fails |
| FloatingRecord.FloatingRecordService.SaveRecord | app/src/main/java/com/example/accounting/services/accessibility/FloatingRecordService.kt:149-168 | one insert of a record with the given id, the amount as it converts (0 when missing or not a number), the predicted category, merchant and pay method defaulting to "", the session time and no remark; nothing inserted on failure |
| FloatingRecord.FloatingRecordService.Cancel | app/src/main/java/com/example/accounting/services/accessibility/FloatingRecordService.kt:134-136 | only a stop request; nothing saved |
| FloatingRecord.FloatingRecordService.Timeout | app/src/main/java/com/example/accounting/services/accessibility/FloatingRecordService.kt:139-143 | never saves; asks to stop only when the tracked card is attached |
| FloatingRecord.FloatingRecordService.OnDestroy | app/src/main/java/com/example/accounting/services/accessibility/FloatingRecordService.kt:63-68 | removes the tracked card when there is one and it is attached, nothing else |
| FloatingRecord.ShownCategoryIsSaved | app/src/main/java/com/example/accounting/services/accessibility/FloatingRecordService.kt:121-154 | for any service and any remembered categories, with no correction in between, the category a new card shows is the one its confirm saves: the prediction against the cache as it was before the start |
| FloatingRecord.FreshCardShowsKeywordCategory | app/src/main/java/com/example/accounting/services/accessibility/FloatingRecordService.kt:121-154 | with a classifier that remembers nothing, the shown and the saved category are both the keyword category |
| FloatingRecord.ConfirmSavesIntent | app/src/main/java/com/example/accounting/services/accessibility/FloatingRecordService.kt:149-162 | a confirmed card inserts exactly one record built from the intent |
| FloatingRecord.CancelAndTimeoutSaveNothing | app/src/main/java/com/example/accounting/services/accessibility/FloatingRecordService.kt:134-143 | cancel and timeout insert nothing, and the timeout asks once to stop |
| FloatingRecord.TimeoutAfterDestroyIsQuiet | app/src/main/java/com/example/accounting/services/accessibility/FloatingRecordService.kt:139-143 | a timer that runs after the teardown makes no stop request |
| FloatingRecord.DoubleConfirmSavesTwice | app/src/main/java/com/example/accounting/services/accessibility/FloatingRecordService.kt:128-131 | two confirms before the teardown insert two records |
| FloatingRecord.SecondStartLeavesFirstCard | app/src/main/java/com/example/accounting/services/accessibility/FloatingRecordService.kt:75-99 | after two starts and a teardown the first card is still attached |
| FloatingRecord.NullIntentShowsNothing | app/src/main/java/com/example/accounting/services/accessibility/FloatingRecordService.kt:47-54 | a start command without an intent attaches no card and posts no timer |
| PaymentDetection.SourceAppOf | app/src/main/java/com/example/accounting/services/accessibility/PaymentDetectionService.kt:40-52 | an event reaches no handler exactly when its type is neither window change, its package is null, or its package is neither app's; WeChat and Alipay events reach their own handler |
| PaymentDetection.MatchAmount | app/src/main/java/com/example/accounting/services/accessibility/PaymentDetectionService.kt:81-83 | each app's pattern returns an amount-shaped text |
| PaymentDetection.CoolingDown | app/src/main/java/com/example/accounting/services/accessibility/PaymentDetectionService.kt:65 | the cooldown test on `Long`s, shared by both handlers (:65 and :103); for clock readings that are not negative it is `now - last < 3000` (Base.ClockDifferenceExact) |
| PaymentDetection.Handle | app/src/main/java/com/example/accounting/services/accessibility/PaymentDetectionService.kt:62-133 | one handler as a function: no intent on an early return, otherwise the intent built from the matched amount, the merchant and the pay method; its meaning is stated by DetectExactly and DetectionContents |
| PaymentDetection.Detect | app/src/main/java/com/example/accounting/services/accessibility/PaymentDetectionService.kt:38-53 | the event filter in front of the handler: no intent for a filtered event (IgnoredEventsDetectNothing), otherwise what the app's handler decides |
| PaymentDetection.PaymentDetectionService.constructor | app/src/main/java/com/example/accounting/services/accessibility/PaymentDetectionService.kt:30 | the cooldown stamp starts at 0 and no card has been started |
| PaymentDetection.PaymentDetectionService.OnAccessibilityEvent | app/src/main/java/com/example/accounting/services/accessibility/PaymentDetectionService.kt:38-53 | without a detection nothing changes; with one, exactly one card is started with it and the stamp becomes the entry clock |
| PaymentDetection.PaymentDetectionService.HandleWechatPayment | app/src/main/java/com/example/accounting/services/accessibility/PaymentDetectionService.kt:62-95 | the WeChat handler: on every early return nothing changes; otherwise one card and the new stamp |
| PaymentDetection.PaymentDetectionService.HandleAlipayPayment | app/src/main/java/com/example/accounting/services/accessibility/PaymentDetectionService.kt:100-133 | the Alipay handler, the same with its own pattern and pay method |
| PaymentDetection.PaymentDetectionService.ShowAccountingWindow | app/src/main/java/com/example/accounting/services/accessibility/PaymentDetectionService.kt:188-199 | one start intent carrying amount, merchant, pay method and the clock, and the stamp untouched |
| PaymentDetection.IgnoredEventsDetectNothing | app/src/main/java/com/example/accounting/services/accessibility/PaymentDetectionService.kt:40-52 | filtered-out events detect nothing |
| PaymentDetection.CooldownSharedByBothApps | app/src/main/java/com/example/accounting/services/accessibility/PaymentDetectionService.kt:64-67 | less than 3000 ms after the stamp, or with the clock set back before it, nothing is detected, from either app |
| PaymentDetection.AtMostOneCardPerCooldown | app/src/main/java/com/example/accounting/services/accessibility/PaymentDetectionService.kt:102-105 | of two events less than 3000 ms apart, or with the clock set back between them, from any apps, at most one starts a card |
| PaymentDetection.InitialStampBlocksEarlyClock | app/src/main/java/com/example/accounting/services/accessibility/PaymentDetectionService.kt:30-31 | the stamp starts at 0, so a clock below 3000 detects nothing |
| PaymentDetection.DetectExactly | app/src/main/java/com/example/accounting/services/accessibility/PaymentDetectionService.kt:62-91 | a card is started exactly when the app is known, the cooldown is over, there is a window, a node has the success text and the app's pattern matches |
| PaymentDetection.DetectionContents | app/src/main/java/com/example/accounting/services/accessibility/PaymentDetectionService.kt:80-90 | a detection carries the pattern's amount, the heuristic's merchant, "微信支付" or "支付宝" by package, and the clock read at show time; the success text is in the window text |
| PaymentDetection.DetectedPaymentSavedAsIncome | app/src/main/java/com/example/accounting/services/accessibility/FloatingRecordService.kt:153 | a detected amount is stored non-negative, and positive exactly when it has a nonzero digit |
| PaymentScenario.WechatPageAmount | app/src/main/java/com/example/accounting/services/accessibility/PaymentDetectionService.kt:81-83 | the sample page's text gives "88.00" |
| PaymentScenario.WechatPageMerchant | app/src/main/java/com/example/accounting/services/accessibility/PaymentDetectionService.kt:165-175 | the sample page's merchant is the row neighbour of "商户:" |
| PaymentScenario.WechatPageDetected | app/src/main/java/com/example/accounting/services/accessibility/PaymentDetectionService.kt:62-91 | a WeChat event on the sample page, after the cooldown, starts a card for "88.00", "星巴克咖啡", "微信支付" |
| PaymentScenario.WechatPaymentRecorded | app/src/main/java/com/example/accounting/services/accessibility/FloatingRecordService.kt:149-162 | detection, start and confirm store 88.00 as a positive amount, category "餐饮", merchant, pay method and show time |

## Left out

- Live Android machinery is not modelled: `AccessibilityNodeInfo` handles and `recycle()`,
  `rootInActiveWindow`, layout inflation and window parameters, `WindowManager`, the
  `Intent`/`startService` hand-off and `postDelayed`. The window is a snapshot passed in.
  Starting the card is an entry in `started`. Attaching and removing cards is the set
  `attached`. A stop request is a counter. The posted timer is a counter with an explicit
  `Timeout` call.
- `onServiceConnected`, `onInterrupt` and `onBind` only log or return null and are not
  modelled. Logging is not modelled.
- `findAccessibilityNodeInfosByText` searches case-insensitively and also looks at content
  descriptions. The model searches node text by containment only. Case plays no part for
  the Chinese markers.
- Node identity (`child != node`) is node-index inequality.
- `System.currentTimeMillis` is a parameter: `now` at handler entry and `nowAtShow` in
  `showAccountingWindow`. The card's own default clock is `now`. `UUID.randomUUID` is the
  `id` parameter.
- `DecimalAmount.ParseAmount`: `toDoubleOrNull` and the `Double` amount are floating
  point. The model is an exact decimal on sign, digits and at most one '.'. Exponents, hex,
  "NaN"/"Infinity", type suffixes and surrounding whitespace therefore count as not a
  number here. Rounding to the nearest `Double` is not modelled. Every amount the two
  patterns capture is inside the modelled grammar.
- `DateUtils.formatDateTime` is not modelled: the card holds the raw time.
- The repository (`RecordRepository`, Room, its executor) is not modelled. It is the
  ordered log `inserted`: a record is appended when `saveRecord` hands it over.
- `FloatingRecord.FloatingRecordService.SaveRecord`: `addRecord` only queues the database
  insert on the repository's executor (RecordRepository.kt:45-52), so the insert runs after
  `saveRecord` has returned and outside its `try`. A failure of that asynchronous insert is
  neither modelled nor caught. The `storageFails` parameter stands only for a synchronous
  failure inside the `try` (obtaining the repository or queueing the task), which is logged
  and otherwise has no effect.
- Concurrency is not modelled. Events, clicks and the timer run one at a time on the main
  looper, so they are sequential method calls.
- Clicks are only possible on cards that are attached; this is the `view in attached`
  precondition of `Confirm` and `Cancel`.
- A timer is posted while its card is detached and runs once the card is attached. The model
  lets a posted timer run at any time after it is posted.
- The 10 000 ms length of the auto-close delay is not modelled, because the clock never
  drives the card: only the fact that a callback is pending is kept.
