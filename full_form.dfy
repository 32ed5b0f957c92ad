/**
 * The full form (app.py): the fields it derives from the user's answers,
 * the 21-column transaction it builds from them, and the text it shows for
 * the classifier's label.
 *
 * Dates are whole-day ordinals, so the difference of two dates in days is a
 * subtraction. The classifier is not modelled: the label it returns is a
 * parameter of the functions that render it.
 */
module FullForm {
  import opened Wrappers
  import opened Values
  import opened Schema
  import opened Frame

  /** The value of the time picker; only its hour is used. */
  datatype TimeOfDay = TimeOfDay(hour: int, minute: int)

  /** The checkbox "compute account age from account creation date" and the entry it enables. */
  datatype AccountAgeEntry = FromCreationDate(creationDate: int) | Manual(days: int)

  /** The answers of one submission of the full form. Floats are carried as their `repr` text. */
  datatype FormInputs = FormInputs(
    senderUpi: string,
    receiverUpi: string,
    amount: string,
    txnType: string,
    merchantCategory: string,
    channel: string,
    deviceType: string,
    deviceId: string,
    txnDate: int,
    txnTime: TimeOfDay,
    senderAge: int,
    senderBank: string,
    receiverBank: string,
    city: string,
    accountAge: AccountAgeEntry,
    numTxnsLast24h: int,
    avgAmountLast7d: string,
    prevFraudSender: int,
    prevFraudReceiver: int,
    deviceChanged: string,
    note: string)

  predicate ValidTime(t: TimeOfDay)
  {
    0 <= t.hour < 24 && 0 <= t.minute < 60
  }

  /**
   * What the widgets let through: the integer inputs stay within their
   * min/max, the time is a time of day and every select box answer is one of
   * its options. The float widgets' bounds are not stated, floats being
   * carried as their text.
   */
  predicate WidgetBounds(inp: FormInputs)
  {
    && ValidTime(inp.txnTime)
    && 13 <= inp.senderAge <= 100
    && (inp.accountAge.Manual? ==> 0 <= inp.accountAge.days <= 10000)
    && 0 <= inp.numTxnsLast24h <= 500
    && 0 <= inp.prevFraudSender <= 100
    && 0 <= inp.prevFraudReceiver <= 100
    && inp.txnType in TransactionTypes
    && inp.merchantCategory in MerchantCategories
    && inp.channel in Channels
    && inp.deviceType in DeviceTypes
    && inp.senderBank in Banks
    && inp.receiverBank in Banks
    && inp.deviceChanged in DeviceChangeChoices
  }

  // ----- Is_Night_Txn -----

  /** Is_Night_Txn: 1 for an hour of 22 or later or before 6, 0 otherwise. */
  function NightFlag(hour: int): (flag: int)
    ensures flag == 0 || flag == 1
    ensures flag == 1 <==> hour >= 22 || hour < 6
  {
    if hour >= 22 || hour < 6 then 1 else 0
  }

  /** Minutes since midnight. */
  function MinuteOfDay(t: TimeOfDay): int
  {
    60 * t.hour + t.minute
  }

  /** The night window [22:00, 06:00) on the clock, which wraps past midnight. */
  predicate InNightWindow(minutes: int)
  {
    minutes >= 22 * 60 || minutes < 6 * 60
  }

  /** Flagging by the hour alone is flagging the times in [22:00, 06:00); for example 23:10 is night and 08:00 is not. */
  lemma NightFlagIsNightWindow(t: TimeOfDay)
    requires ValidTime(t)
    ensures NightFlag(t.hour) == 1 <==> InNightWindow(MinuteOfDay(t))
  {
  }

  // ----- Sender_Age_Group -----

  const AgeGroups: seq<string> := ["18-25", "25-35", "35-50", "50+"]

  /** The ages at which the next group starts. */
  const AgeThresholds: seq<int> := [25, 35, 50]

  /**
   * Sender_Age_Group. Every age gets exactly one of the four groups: under
   * 25, from 25 to under 35, from 35 to under 50, and 50 or more.
   */
  function AgeGroup(age: int): (g: string)
    ensures g in AgeGroups
    ensures g == "18-25" <==> age < 25
    ensures g == "25-35" <==> 25 <= age < 35
    ensures g == "35-50" <==> 35 <= age < 50
    ensures g == "50+" <==> age >= 50
  {
    if age < 25 then "18-25"
    else if age < 35 then "25-35"
    else if age < 50 then "35-50"
    else "50+"
  }

  /** How many of the thresholds the age has reached. */
  function CountReached(thresholds: seq<int>, age: int): (n: nat)
    ensures n <= |thresholds|
  {
    if thresholds == [] then 0
    else (if thresholds[0] <= age then 1 else 0) + CountReached(thresholds[1..], age)
  }

  /** An older sender has reached at least as many thresholds. */
  lemma {:induction false} CountReachedMonotone(thresholds: seq<int>, a: int, b: int)
    requires a <= b
    ensures CountReached(thresholds, a) <= CountReached(thresholds, b)
  {
    if thresholds != [] {
      CountReachedMonotone(thresholds[1..], a, b);
    }
  }

  /** The group's position in the order 18-25, 25-35, 35-50, 50+. */
  function GroupRank(g: string): nat
  {
    if g == "18-25" then 0 else if g == "25-35" then 1 else if g == "35-50" then 2 else 3
  }

  /** The if/elif chain agrees with the threshold table: the group is the one after as many thresholds as the age has reached. */
  lemma AgeGroupByThresholds(age: int)
    ensures GroupRank(AgeGroup(age)) == CountReached(AgeThresholds, age)
    ensures AgeGroup(age) == AgeGroups[CountReached(AgeThresholds, age)]
  {
    var t := AgeThresholds;
    assert t[1..] == [35, 50] && t[1..][1..] == [50] && t[1..][1..][1..] == [];
    assert CountReached([50], age) == if 50 <= age then 1 else 0;
    assert CountReached([35, 50], age) == (if 35 <= age then 1 else 0) + CountReached([50], age);
  }

  /** Age groups never go backwards as the age grows. */
  lemma AgeGroupMonotone(a: int, b: int)
    requires a <= b
    ensures GroupRank(AgeGroup(a)) <= GroupRank(AgeGroup(b))
  {
    AgeGroupByThresholds(a);
    AgeGroupByThresholds(b);
    CountReachedMonotone(AgeThresholds, a, b);
  }

  // ----- Account_Age_Days -----

  /** The account age computed from the two dates, and whether the warning is shown. */
  datatype DateAge = DateAge(days: int, warned: bool)

  /**
   * The transaction date minus the creation date, in days; when the creation
   * date is the later one, 0 and a warning instead.
   */
  function AccountAgeFromDates(txnDate: int, creationDate: int): (r: DateAge)
    ensures r.days >= 0
    ensures r.warned <==> creationDate > txnDate
    ensures !r.warned ==> r.days == txnDate - creationDate
    ensures r.warned ==> r.days == 0
  {
    var days := txnDate - creationDate;
    if days < 0 then DateAge(0, true) else DateAge(days, false)
  }

  /** The date-based age is the larger of 0 and the day difference, and depends on nothing but that difference. */
  lemma AccountAgeIsClampedDifference(txnDate: int, creationDate: int, shift: int)
    ensures AccountAgeFromDates(txnDate, creationDate).days
            == if txnDate - creationDate > 0 then txnDate - creationDate else 0
    ensures AccountAgeFromDates(txnDate + shift, creationDate + shift)
            == AccountAgeFromDates(txnDate, creationDate)
  {
  }

  /** Account_Age_Days: from the two dates when the checkbox is ticked, else the manual entry. */
  function AccountAgeDays(inp: FormInputs): (days: int)
    ensures inp.accountAge.FromCreationDate? ==>
      days == AccountAgeFromDates(inp.txnDate, inp.accountAge.creationDate).days
    ensures inp.accountAge.Manual? ==> days == inp.accountAge.days
  {
    match inp.accountAge
    case FromCreationDate(created) => AccountAgeFromDates(inp.txnDate, created).days
    case Manual(days) => days
  }

  /** The warning is shown exactly when the creation date is used and lies after the transaction date. */
  function Warned(inp: FormInputs): (w: bool)
    ensures w <==> inp.accountAge.FromCreationDate? && inp.accountAge.creationDate > inp.txnDate
  {
    inp.accountAge.FromCreationDate? && AccountAgeFromDates(inp.txnDate, inp.accountAge.creationDate).warned
  }

  // ----- Device_Change_Flag -----

  /** Device_Change_Flag: 1 when the answer is "Yes", 0 for any other answer. */
  function DeviceChangeFlag(choice: string): (flag: int)
    ensures flag == 0 || flag == 1
    ensures flag == 1 <==> choice == "Yes"
  {
    if choice == "Yes" then 1 else 0
  }

  /** Worked cases: ages 24, 35 and 50; times 23:10 and 08:00; a creation date one day after the transaction. */
  lemma DerivationExamples(txnDate: int)
    ensures AgeGroup(24) == "18-25" && AgeGroup(35) == "35-50" && AgeGroup(50) == "50+"
    ensures NightFlag(TimeOfDay(23, 10).hour) == 1 && NightFlag(TimeOfDay(8, 0).hour) == 0
    ensures AccountAgeFromDates(txnDate, txnDate + 1) == DateAge(0, true)
  {
  }

  // ----- The transaction -----

  /** The dict literal of the transaction, in the order its keys are written. */
  function NewTxn(inp: FormInputs): (r: Row)
    ensures Names(r) == FeatureColumns
  {
    var r := [
      ("Sender_UPI_ID", Str(inp.senderUpi)),
      ("Receiver_UPI_ID", Str(inp.receiverUpi)),
      ("Amount_INR", Num(inp.amount)),
      ("Transaction_Type", Str(inp.txnType)),
      ("Merchant_Category", Str(inp.merchantCategory)),
      ("Channel", Str(inp.channel)),
      ("Device_Type", Str(inp.deviceType)),
      ("Device_ID", Str(inp.deviceId)),
      ("IP_Risk_Score", Num("0.0")),
      ("City", Str(inp.city)),
      ("Sender_Age_Group", Str(AgeGroup(inp.senderAge))),
      ("Sender_Bank", Str(inp.senderBank)),
      ("Receiver_Bank", Str(inp.receiverBank)),
      ("Account_Age_Days", Int(AccountAgeDays(inp))),
      ("Num_Txns_Last_24H", Int(inp.numTxnsLast24h)),
      ("Avg_Amount_Last_7d", Num(inp.avgAmountLast7d)),
      ("Prev_Fraud_Count_Sender", Int(inp.prevFraudSender)),
      ("Prev_Fraud_Count_Receiver", Int(inp.prevFraudReceiver)),
      ("Transaction_Note", Str(inp.note)),
      ("Is_Night_Txn", Int(NightFlag(inp.txnTime.hour))),
      ("Device_Change_Flag", Int(DeviceChangeFlag(inp.deviceChanged)))
    ];
    assert Names(r) == FeatureColumns;
    r
  }

  /** Every categorical column of the transaction already holds a string. */
  lemma CategoricalAlreadyText(inp: FormInputs)
    ensures forall i :: 0 <= i < |NewTxn(inp)| && NewTxn(inp)[i].0 in CategoricalCols ==> IsText(NewTxn(inp)[i].1)
  {
  }

  /** The transaction's keys are distinct, as a dict's are. */
  lemma NewTxnNamesDistinct(inp: FormInputs)
    ensures Distinct(Names(NewTxn(inp)))
  {
    SchemaShape();
  }

  /** Each column of the transaction is found by its name. */
  lemma LookupNewTxn(inp: FormInputs, i: nat)
    requires i < |FeatureColumns|
    ensures Lookup(NewTxn(inp), FeatureColumns[i]) == Some(NewTxn(inp)[i].1)
  {
    NewTxnNamesDistinct(inp);
    LookupAt(NewTxn(inp), i);
  }

  /** The user's answers reach the transaction unchanged, and IP_Risk_Score is always 0.0. */
  lemma UserFieldsPassThrough(inp: FormInputs)
    ensures Lookup(NewTxn(inp), "Sender_UPI_ID") == Some(Str(inp.senderUpi))
    ensures Lookup(NewTxn(inp), "Receiver_UPI_ID") == Some(Str(inp.receiverUpi))
    ensures Lookup(NewTxn(inp), "Amount_INR") == Some(Num(inp.amount))
    ensures Lookup(NewTxn(inp), "Transaction_Type") == Some(Str(inp.txnType))
    ensures Lookup(NewTxn(inp), "Merchant_Category") == Some(Str(inp.merchantCategory))
    ensures Lookup(NewTxn(inp), "Channel") == Some(Str(inp.channel))
    ensures Lookup(NewTxn(inp), "Device_Type") == Some(Str(inp.deviceType))
    ensures Lookup(NewTxn(inp), "Device_ID") == Some(Str(inp.deviceId))
    ensures Lookup(NewTxn(inp), "IP_Risk_Score") == Some(Num("0.0"))
    ensures Lookup(NewTxn(inp), "City") == Some(Str(inp.city))
    ensures Lookup(NewTxn(inp), "Sender_Bank") == Some(Str(inp.senderBank))
    ensures Lookup(NewTxn(inp), "Receiver_Bank") == Some(Str(inp.receiverBank))
    ensures Lookup(NewTxn(inp), "Num_Txns_Last_24H") == Some(Int(inp.numTxnsLast24h))
    ensures Lookup(NewTxn(inp), "Avg_Amount_Last_7d") == Some(Num(inp.avgAmountLast7d))
    ensures Lookup(NewTxn(inp), "Prev_Fraud_Count_Sender") == Some(Int(inp.prevFraudSender))
    ensures Lookup(NewTxn(inp), "Prev_Fraud_Count_Receiver") == Some(Int(inp.prevFraudReceiver))
    ensures Lookup(NewTxn(inp), "Transaction_Note") == Some(Str(inp.note))
  {
    LookupNewTxn(inp, 0);
    LookupNewTxn(inp, 1);
    LookupNewTxn(inp, 2);
    LookupNewTxn(inp, 3);
    LookupNewTxn(inp, 4);
    LookupNewTxn(inp, 5);
    LookupNewTxn(inp, 6);
    LookupNewTxn(inp, 7);
    LookupNewTxn(inp, 8);
    LookupNewTxn(inp, 9);
    LookupNewTxn(inp, 11);
    LookupNewTxn(inp, 12);
    LookupNewTxn(inp, 14);
    LookupNewTxn(inp, 15);
    LookupNewTxn(inp, 16);
    LookupNewTxn(inp, 17);
    LookupNewTxn(inp, 18);
  }

  /** The four derived columns hold the derivation rules' values. */
  lemma DerivedFields(inp: FormInputs)
    ensures Lookup(NewTxn(inp), "Sender_Age_Group") == Some(Str(AgeGroup(inp.senderAge)))
    ensures Lookup(NewTxn(inp), "Account_Age_Days") == Some(Int(AccountAgeDays(inp)))
    ensures Lookup(NewTxn(inp), "Is_Night_Txn") == Some(Int(NightFlag(inp.txnTime.hour)))
    ensures Lookup(NewTxn(inp), "Device_Change_Flag") == Some(Int(DeviceChangeFlag(inp.deviceChanged)))
  {
    LookupNewTxn(inp, 10);
    LookupNewTxn(inp, 13);
    LookupNewTxn(inp, 19);
    LookupNewTxn(inp, 20);
  }

  /** Column `name` of `r` holds an integer between `lo` and `hi`. */
  predicate IntBetween(r: Row, name: string, lo: int, hi: int)
  {
    Lookup(r, name).Some? && Lookup(r, name).value.Int? && lo <= Lookup(r, name).value.n <= hi
  }

  /**
   * Within the widgets' bounds, the counters of the transaction stay within
   * theirs: Account_Age_Days is never negative and a manual entry is at most
   * 10000, the 24-hour count is in [0, 500], the fraud counts in [0, 100], and
   * both flags are 0 or 1.
   */
  lemma CountersInBounds(inp: FormInputs)
    requires WidgetBounds(inp)
    ensures Lookup(NewTxn(inp), "Account_Age_Days") == Some(Int(AccountAgeDays(inp)))
    ensures AccountAgeDays(inp) >= 0
    ensures inp.accountAge.Manual? ==> IntBetween(NewTxn(inp), "Account_Age_Days", 0, 10000)
    ensures IntBetween(NewTxn(inp), "Num_Txns_Last_24H", 0, 500)
    ensures IntBetween(NewTxn(inp), "Prev_Fraud_Count_Sender", 0, 100)
    ensures IntBetween(NewTxn(inp), "Prev_Fraud_Count_Receiver", 0, 100)
    ensures IntBetween(NewTxn(inp), "Is_Night_Txn", 0, 1)
    ensures IntBetween(NewTxn(inp), "Device_Change_Flag", 0, 1)
  {
    LookupNewTxn(inp, 13);
    LookupNewTxn(inp, 14);
    LookupNewTxn(inp, 16);
    LookupNewTxn(inp, 17);
    LookupNewTxn(inp, 19);
    LookupNewTxn(inp, 20);
  }

  /**
   * The submission: the transaction goes through the categorical loop and is
   * reordered to the schema. Both steps leave it exactly as the dict literal
   * built it, since its categorical columns are already text and its keys
   * already come in schema order. `warned` passes on the account-age warning,
   * which the page shows on every rerun, whether or not the button is pressed.
   */
  method Submit(inp: FormInputs) returns (res: Result<Row, KeyError>, warned: bool)
    ensures res.Ok? && Names(res.value) == FeatureColumns
    ensures res == Ok(NewTxn(inp))
    ensures warned <==> inp.accountAge.FromCreationDate? && inp.accountAge.creationDate > inp.txnDate
  {
    warned := Warned(inp);
    var row := NewTxn(inp);
    res := Prepare(row, CategoricalCols, FeatureColumns);
    SchemaShape();
    CategoricalAlreadyText(inp);
    assert res.Ok?;
    assert |res.value| == |Names(res.value)| == |row|;
    forall i | 0 <= i < |row| ensures res.value[i] == row[i] {
      LookupAt(row, i);
      assert res.value[i].0 == FeatureColumns[i] == row[i].0;
    }
    assert res.value == row;
  }

  // ----- The result -----

  /** The predicted label as the page writes it. */
  function LabelText(predicted: int): (t: string)
    ensures t == " Fraudulent" <==> predicted == 1
    ensures t == " Legitimate" <==> predicted != 1
  {
    if predicted == 1 then " Fraudulent" else " Legitimate"
  }

  /** The kind of status message shown under the result. */
  datatype Status = ErrorMessage | SuccessMessage

  function StatusFor(predicted: int): (s: Status)
    ensures s == ErrorMessage <==> predicted == 1
  {
    if predicted == 1 then ErrorMessage else SuccessMessage
  }
}
