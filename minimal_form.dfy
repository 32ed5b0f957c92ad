/**
 * The minimal form (src/app.py): eight answers from the user, every other
 * column of the transaction a fixed default, then the same categorical loop
 * and reorder as the full form.
 */
module MinimalForm {
  import opened Wrappers
  import opened Values
  import opened Schema
  import opened Frame
  import FullForm

  /** The minimal form's own copy of the column list. */
  const MinimalFeatureColumns: seq<string> := [
    "Sender_UPI_ID", "Receiver_UPI_ID", "Amount_INR", "Transaction_Type",
    "Merchant_Category", "Channel", "Device_Type", "Device_ID",
    "IP_Risk_Score", "City", "Sender_Age_Group", "Sender_Bank", "Receiver_Bank",
    "Account_Age_Days", "Num_Txns_Last_24H", "Avg_Amount_Last_7d",
    "Prev_Fraud_Count_Sender", "Prev_Fraud_Count_Receiver",
    "Transaction_Note", "Is_Night_Txn", "Device_Change_Flag"
  ]

  /** The minimal form's own copy of the categorical list. */
  const MinimalCategoricalCols: seq<string> := [
    "Sender_UPI_ID", "Receiver_UPI_ID", "Transaction_Type", "Merchant_Category",
    "Channel", "Device_Type", "Device_ID", "City", "Sender_Age_Group",
    "Sender_Bank", "Receiver_Bank", "Transaction_Note"
  ]

  /** Both forms hand the classifier the same schema: 21 distinct columns, 12 categorical ones among them. */
  lemma SameSchemaAsFullForm()
    ensures MinimalFeatureColumns == FeatureColumns
    ensures MinimalCategoricalCols == CategoricalCols
    ensures |MinimalFeatureColumns| == 21 && Distinct(MinimalFeatureColumns)
    ensures |MinimalCategoricalCols| == 12
    ensures forall c :: c in MinimalCategoricalCols ==> c in MinimalFeatureColumns
  {
    SchemaShape();
  }

  /** The answers of one submission of the minimal form. The amount is carried as its `repr` text. */
  datatype MinimalInputs = MinimalInputs(
    senderUpi: string,
    receiverUpi: string,
    amount: string,
    txnType: string,
    merchantCategory: string,
    channel: string,
    deviceType: string,
    deviceId: string)

  /** Every select box answer is one of its options. */
  predicate WidgetBounds(inp: MinimalInputs)
  {
    && inp.txnType in TransactionTypes
    && inp.merchantCategory in MerchantCategories
    && inp.channel in Channels
    && inp.deviceType in DeviceTypes
  }

  /** The dict literal of the transaction: the user's eight answers and fixed defaults. */
  function NewTxn(inp: MinimalInputs): (r: Row)
    ensures Names(r) == MinimalFeatureColumns
  {
    var r := [
      ("Sender_UPI_ID", Str(inp.senderUpi)),
      ("Receiver_UPI_ID", Str(inp.receiverUpi)),
      ("Amount_INR", Num(inp.amount)),
      ("Transaction_Type", Str(inp.txnType)),
      ("Merchant_Category", Str(inp.merchantCategory)),
      ("Channel", Str(inp.channel)),
      ("Device_Type", Str(inp.deviceType)),
      ("Device_ID", Str(inp.deviceId)),
      ("IP_Risk_Score", Num("0.0")),
      ("City", Str("Unknown")),
      ("Sender_Age_Group", Str("18-25")),
      ("Sender_Bank", Str("Unknown")),
      ("Receiver_Bank", Str("Unknown")),
      ("Account_Age_Days", Int(365)),
      ("Num_Txns_Last_24H", Int(0)),
      ("Avg_Amount_Last_7d", Num(inp.amount)),
      ("Prev_Fraud_Count_Sender", Int(0)),
      ("Prev_Fraud_Count_Receiver", Int(0)),
      ("Transaction_Note", Str("payment")),
      ("Is_Night_Txn", Int(0)),
      ("Device_Change_Flag", Int(0))
    ];
    assert Names(r) == MinimalFeatureColumns;
    r
  }

  /** Every categorical column of the transaction already holds a string. */
  lemma CategoricalAlreadyText(inp: MinimalInputs)
    ensures forall i :: 0 <= i < |NewTxn(inp)| && NewTxn(inp)[i].0 in MinimalCategoricalCols ==> IsText(NewTxn(inp)[i].1)
  {
  }

  /** Each column of the transaction is found by its name. */
  lemma LookupNewTxn(inp: MinimalInputs, i: nat)
    requires i < |MinimalFeatureColumns|
    ensures Lookup(NewTxn(inp), MinimalFeatureColumns[i]) == Some(NewTxn(inp)[i].1)
  {
    SameSchemaAsFullForm();
    LookupAt(NewTxn(inp), i);
  }

  /** The eight answers reach the transaction unchanged. */
  lemma UserFieldsPassThrough(inp: MinimalInputs)
    ensures Lookup(NewTxn(inp), "Sender_UPI_ID") == Some(Str(inp.senderUpi))
    ensures Lookup(NewTxn(inp), "Receiver_UPI_ID") == Some(Str(inp.receiverUpi))
    ensures Lookup(NewTxn(inp), "Amount_INR") == Some(Num(inp.amount))
    ensures Lookup(NewTxn(inp), "Transaction_Type") == Some(Str(inp.txnType))
    ensures Lookup(NewTxn(inp), "Merchant_Category") == Some(Str(inp.merchantCategory))
    ensures Lookup(NewTxn(inp), "Channel") == Some(Str(inp.channel))
    ensures Lookup(NewTxn(inp), "Device_Type") == Some(Str(inp.deviceType))
    ensures Lookup(NewTxn(inp), "Device_ID") == Some(Str(inp.deviceId))
  {
    LookupNewTxn(inp, 0);
    LookupNewTxn(inp, 1);
    LookupNewTxn(inp, 2);
    LookupNewTxn(inp, 3);
    LookupNewTxn(inp, 4);
    LookupNewTxn(inp, 5);
    LookupNewTxn(inp, 6);
    LookupNewTxn(inp, 7);
  }

  /** The other twelve columns are the same for every submission, except that the 7-day average copies the amount. */
  lemma DefaultedFields(inp: MinimalInputs)
    ensures Lookup(NewTxn(inp), "IP_Risk_Score") == Some(Num("0.0"))
    ensures Lookup(NewTxn(inp), "City") == Some(Str("Unknown"))
    ensures Lookup(NewTxn(inp), "Sender_Age_Group") == Some(Str("18-25"))
    ensures Lookup(NewTxn(inp), "Sender_Bank") == Some(Str("Unknown"))
    ensures Lookup(NewTxn(inp), "Receiver_Bank") == Some(Str("Unknown"))
    ensures Lookup(NewTxn(inp), "Account_Age_Days") == Some(Int(365))
    ensures Lookup(NewTxn(inp), "Num_Txns_Last_24H") == Some(Int(0))
    ensures Lookup(NewTxn(inp), "Prev_Fraud_Count_Sender") == Some(Int(0))
    ensures Lookup(NewTxn(inp), "Prev_Fraud_Count_Receiver") == Some(Int(0))
    ensures Lookup(NewTxn(inp), "Transaction_Note") == Some(Str("payment"))
    ensures Lookup(NewTxn(inp), "Is_Night_Txn") == Some(Int(0))
    ensures Lookup(NewTxn(inp), "Device_Change_Flag") == Some(Int(0))
    ensures Lookup(NewTxn(inp), "Avg_Amount_Last_7d") == Lookup(NewTxn(inp), "Amount_INR")
  {
    LookupNewTxn(inp, 2);
    LookupNewTxn(inp, 8);
    LookupNewTxn(inp, 9);
    LookupNewTxn(inp, 10);
    LookupNewTxn(inp, 11);
    LookupNewTxn(inp, 12);
    LookupNewTxn(inp, 13);
    LookupNewTxn(inp, 14);
    LookupNewTxn(inp, 15);
    LookupNewTxn(inp, 16);
    LookupNewTxn(inp, 17);
    LookupNewTxn(inp, 18);
    LookupNewTxn(inp, 19);
    LookupNewTxn(inp, 20);
  }

  /**
   * The answers the full form would need to give for the same transaction:
   * the minimal form's defaults, as answers the full form's widgets accept.
   */
  function AsFullFormInputs(inp: MinimalInputs): FullForm.FormInputs
  {
    FullForm.FormInputs(
      senderUpi := inp.senderUpi,
      receiverUpi := inp.receiverUpi,
      amount := inp.amount,
      txnType := inp.txnType,
      merchantCategory := inp.merchantCategory,
      channel := inp.channel,
      deviceType := inp.deviceType,
      deviceId := inp.deviceId,
      txnDate := 0,
      txnTime := FullForm.TimeOfDay(12, 0),
      senderAge := 18,
      senderBank := "Unknown",
      receiverBank := "Unknown",
      city := "Unknown",
      accountAge := FullForm.Manual(365),
      numTxnsLast24h := 0,
      avgAmountLast7d := inp.amount,
      prevFraudSender := 0,
      prevFraudReceiver := 0,
      deviceChanged := "No",
      note := "payment")
  }

  /**
   * The minimal form is the full form with defaulted answers: its transaction
   * is the one the full form builds from answers that the full form's widgets
   * accept (a daytime hour, an age under 25, a manual account age of 365 days,
   * and so on).
   */
  lemma MinimalIsFullWithDefaults(inp: MinimalInputs)
    requires WidgetBounds(inp)
    ensures FullForm.WidgetBounds(AsFullFormInputs(inp))
    ensures NewTxn(inp) == FullForm.NewTxn(AsFullFormInputs(inp))
  {
  }

  /**
   * The submission: the categorical loop and the reorder, on the minimal
   * form's own column lists. Both leave the transaction exactly as the dict
   * literal built it, in schema order.
   */
  method Submit(inp: MinimalInputs) returns (res: Result<Row, KeyError>)
    ensures res.Ok? && Names(res.value) == FeatureColumns
    ensures res == Ok(NewTxn(inp))
  {
    var row := NewTxn(inp);
    res := Prepare(row, MinimalCategoricalCols, MinimalFeatureColumns);
    SameSchemaAsFullForm();
    CategoricalAlreadyText(inp);
    assert res.Ok?;
    assert |res.value| == |Names(res.value)| == |row|;
    forall i | 0 <= i < |row| ensures res.value[i] == row[i] {
      LookupNewTxn(inp, i);
      assert res.value[i].0 == MinimalFeatureColumns[i] == row[i].0;
    }
    assert res.value == row;
  }

  /** The predicted label as the page writes it. */
  function LabelText(predicted: int): (t: string)
    ensures t == "Fraud" <==> predicted == 1
    ensures t == "Legit" <==> predicted != 1
  {
    if predicted == 1 then "Fraud" else "Legit"
  }
}
