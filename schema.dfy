/**
 * The classifier's input schema and the choice lists of the form, as the
 * full form (app.py) declares them.
 */
module Schema {

  /** Every entry of the list is different from every other. */
  predicate Distinct(s: seq<string>)
  {
    forall i, j :: 0 <= i < j < |s| ==> s[i] != s[j]
  }

  /** The columns in the order the classifier expects them. */
  const FeatureColumns: seq<string> := [
    "Sender_UPI_ID", "Receiver_UPI_ID", "Amount_INR", "Transaction_Type",
    "Merchant_Category", "Channel", "Device_Type", "Device_ID",
    "IP_Risk_Score", "City", "Sender_Age_Group", "Sender_Bank", "Receiver_Bank",
    "Account_Age_Days", "Num_Txns_Last_24H", "Avg_Amount_Last_7d",
    "Prev_Fraud_Count_Sender", "Prev_Fraud_Count_Receiver",
    "Transaction_Note", "Is_Night_Txn", "Device_Change_Flag"
  ]

  /** The columns that are turned into text before the classifier sees them. */
  const CategoricalCols: seq<string> := [
    "Sender_UPI_ID", "Receiver_UPI_ID", "Transaction_Type", "Merchant_Category",
    "Channel", "Device_Type", "Device_ID", "City", "Sender_Age_Group",
    "Sender_Bank", "Receiver_Bank", "Transaction_Note"
  ]

  /** The options of the select boxes. */
  const TransactionTypes: seq<string> := ["P2P", "P2M", "M2P"]
  const MerchantCategories: seq<string> := [
    "Healthcare", "Recharge", "Food & Beverages", "Utilities", "Shopping",
    "Travel", "Education", "Entertainment", "Other"
  ]
  const Channels: seq<string> := ["PhonePe", "Paytm", "GooglePay"]
  const DeviceTypes: seq<string> := ["Mobile", "Desktop"]
  const Banks: seq<string> := ["HDFC", "ICICI", "SBI", "Axis", "Unknown"]
  const DeviceChangeChoices: seq<string> := ["No", "Yes"]

  /** 21 distinct columns; 12 distinct categorical ones, every one of them a column. */
  lemma SchemaShape()
    ensures |FeatureColumns| == 21 && Distinct(FeatureColumns)
    ensures |CategoricalCols| == 12 && Distinct(CategoricalCols)
    ensures forall c :: c in CategoricalCols ==> c in FeatureColumns
  {
  }

  /** The nine columns that are not turned into text: the numeric ones. */
  lemma NumericColumns()
    ensures forall i :: 0 <= i < |FeatureColumns| ==>
      (FeatureColumns[i] !in CategoricalCols <==> i in {2, 8, 13, 14, 15, 16, 17, 19, 20})
  {
  }
}
