# UPI fraud form: the feature assembler

The repository is a Streamlit page that asks for the details of a UPI
payment, builds a one-row pandas frame of 21 named columns from the answers,
and hands it to a pre-trained CatBoost classifier. It comes in two forms:
the full form (`app.py`) derives four columns from the answers (the night
flag, the sender's age group, the account age and the device-change flag);
the minimal form (`src/app.py`) asks for eight answers and fills the other
columns with fixed defaults. Both then turn the twelve categorical columns
into text, one column at a time, and select the columns in schema order.

This project models that assembler and proves what it promises:

- `values.dfy` (module `Values`): the frame's cells (a string, an integer, or
  a float carried as its `repr` text) and Python's `str()` of a cell, with a
  proof that an integer turned into text reads back as the same integer.
- `schema.dfy` (module `Schema`): the column list, the categorical list and
  the select-box options.
- `frame.dfy` (module `Frame`): the one-row frame as an ordered sequence of
  (name, cell) columns; `df[name]`; the `astype(str)` loop as a method with a
  loop invariant, proved equal to converting all the named columns at once;
  `df[cols]` with pandas' KeyError listing the missing names; and the two
  steps together (`Prepare`).
- `full_form.dfy` (module `FullForm`): the derivation rules, the dict literal
  of the full form, its submission and the label text.
- `minimal_form.dfy` (module `MinimalForm`): the minimal form's own column
  lists, its dict literal with defaults, its submission and label text, and
  a proof that it builds exactly what the full form builds from defaulted
  answers.
- `wrappers.dfy` (module `Wrappers`): `Option` and `Result`.

Dates are whole-day ordinals, so `(txn_date - account_creation_date).days`
is a subtraction. The time picker gives a `TimeOfDay`, of which only the hour
is read. The integer widgets' min/max bounds, the time picker's range and the select
boxes' option lists (the lists in `Schema`) are the predicates
`FullForm.WidgetBounds` and `MinimalForm.WidgetBounds`, which the bound lemmas
assume and nothing else requires; `MinimalForm.AsFullFormInputs` gives the
full-form answers that reproduce the minimal form's defaults. The
account-age warning (`st.warning`, app.py:69-70) is `FullForm.Warned(inp)`:
the page shows it on every rerun, before and whether or not the button is
pressed; `FullForm.Submit` only passes it on as its `warned` result.

The full form writes the label as " Fraudulent" or " Legitimate", with a
leading space (app.py:122); the minimal form writes "Fraud" or "Legit"
(src/app.py:93). The minimal form's Transaction_Note is the constant
"payment" (src/app.py:71). Ages 13 to 17, which the age widget accepts, fall
in the group named "18-25", because the first branch tests `sender_age < 25`
(app.py:49-51).

## Model

| member | source | states |
|---|---|---|
| Schema.SchemaShape | app.py:10-23 | the feature list has 21 distinct names, the categorical list 12 distinct names, and every categorical name is a feature |
| Schema.NumericColumns | app.py:10-23 | exactly the columns at positions 2, 8, 13-17, 19 and 20 are left out of the categorical list |
| Values.ToText | app.py:113-114 | `str()` of a cell is always text; a string is unchanged, an integer becomes a numeral (digits after an optional leading minus) that reads back as the integer, a float gives its repr |
| Values.IntTextRoundTrip | app.py:113-114 | reading back the decimal text of any integer gives that integer |
| Values.IntTextInjective | app.py:113-114 | distinct integers never become the same text |
| Values.ToTextIdempotent | src/app.py:80-81 | converting a cell twice is converting it once |
| Frame.Lookup | app.py:114 | `df[name]` finds a cell exactly when the frame has a column of that name |
| Frame.LookupAt | app.py:112 | in a frame with distinct column names, each name finds its own column |
| Frame.Stringify | app.py:113-114 | after the conversion the columns keep their names and order, the named columns hold text, all others are unchanged, and text cells stay as they were |
| Frame.StringifyStep | app.py:113-114 | converting one more column after the ones already done equals converting them all at once |
| Frame.StringifyIdempotent | src/app.py:80-81 | running the categorical conversion twice gives the same frame as running it once |
| Frame.StringifyTextIsIdentity | src/app.py:80-81 | a frame whose categorical cells are already text is left exactly as it is |
| Frame.LookupStringify | app.py:113-115 | after the conversion a column holds its old cell, turned into text when the column is categorical |
| Frame.CoerceCategorical | app.py:113-114 | the loop succeeds exactly when every categorical column exists and then equals converting them all; otherwise it fails with a KeyError naming the first missing one |
| Frame.MissingNames | app.py:115 | lists a name exactly when it is requested and not present |
| Frame.Select | app.py:115 | `df[cols]` succeeds exactly when every name exists, and then has the columns `cols` in that order with the cells of those names; otherwise the KeyError lists every missing name |
| Frame.SelectOwnNames | src/app.py:84 | selecting a frame's own distinct column names gives back the same frame |
| Frame.Prepare | app.py:112-115 | the loop and the reorder succeed exactly when all categorical and feature columns exist; the result has the feature columns in order, each the original cell, turned into text when categorical; a failure names only missing columns |
| FullForm.NightFlag | app.py:46-47 | Is_Night_Txn is 0 or 1, and 1 exactly when the hour is 22 or later or before 6 |
| FullForm.NightFlagIsNightWindow | app.py:45-47 | flagging by the hour is flagging exactly the clock times in [22:00, 06:00) |
| FullForm.AgeGroup | app.py:49-57 | every age gets exactly one of the four groups: under 25, 25 to under 35, 35 to under 50, 50 or more, in both directions |
| FullForm.CountReachedMonotone | app.py:50-56 | an older age has reached at least as many of the group thresholds |
| FullForm.AgeGroupByThresholds | app.py:50-57 | the if/elif chain picks the group after as many of the thresholds 25, 35, 50 as the age has reached |
| FullForm.AgeGroupMonotone | app.py:50-57 | if a <= b, the group of a does not come after the group of b in the order 18-25, 25-35, 35-50, 50+ |
| FullForm.AccountAgeFromDates | app.py:66-71 | the date-based account age is never negative; it is the day difference when the creation date is not later, else 0, and the warning is raised exactly when the creation date is later |
| FullForm.AccountAgeIsClampedDifference | app.py:68-71 | the date-based account age is max(0, difference) and does not change when both dates move by the same number of days |
| FullForm.AccountAgeDays | app.py:64-74 | with the checkbox ticked Account_Age_Days is the date-based age, otherwise the manual entry |
| FullForm.Warned | app.py:69-70 | the warning is shown exactly when the creation date is used and lies after the transaction date |
| FullForm.DeviceChangeFlag | app.py:81-82 | Device_Change_Flag is 0 or 1, and 1 exactly when the answer is "Yes" |
| FullForm.DerivationExamples | app.py:46-71 | age 24 is "18-25", 35 is "35-50", 50 is "50+"; 23:10 is night and 08:00 is not; a creation date one day after the transaction gives 0 days and a warning |
| FullForm.NewTxn | app.py:88-110 | the transaction's keys are exactly the feature columns, in schema order |
| FullForm.CategoricalAlreadyText | app.py:88-110 | every categorical column of the transaction already holds a string |
| FullForm.NewTxnNamesDistinct | app.py:88-110 | the transaction's keys are distinct |
| FullForm.UserFieldsPassThrough | app.py:88-110 | the user's answers reach their columns unchanged and IP_Risk_Score is always 0.0 |
| FullForm.DerivedFields | app.py:99-109 | Sender_Age_Group, Account_Age_Days, Is_Night_Txn and Device_Change_Flag hold the derivation rules' values |
| FullForm.CountersInBounds | app.py:74-79 | within the widgets' bounds Account_Age_Days is never negative and a manual entry at most 10000, the 24-hour count is in [0, 500], the fraud counts in [0, 100] and both flags in [0, 1] |
| FullForm.Submit | app.py:112-115 | the prepared frame always exists, has the feature columns in order and equals the dict literal; the warning flag is raised exactly when the creation date is used and is later than the transaction date |
| FullForm.LabelText | app.py:122 | the label text is " Fraudulent" exactly when the label is 1, else " Legitimate" |
| FullForm.StatusFor | app.py:124-127 | the error-style message is shown exactly when the label is 1 |
| MinimalForm.SameSchemaAsFullForm | src/app.py:12-25 | the minimal form's column and categorical lists equal the full form's: 21 distinct columns, 12 categorical ones among them |
| MinimalForm.NewTxn | src/app.py:52-74 | the transaction's keys are exactly the feature columns, in schema order |
| MinimalForm.CategoricalAlreadyText | src/app.py:52-74 | every categorical column of the transaction already holds a string |
| MinimalForm.UserFieldsPassThrough | src/app.py:53-60 | the eight answers reach their columns unchanged |
| MinimalForm.DefaultedFields | src/app.py:61-73 | City "Unknown", Sender_Age_Group "18-25", both banks "Unknown", Account_Age_Days 365, the counters and flags 0, Transaction_Note "payment", IP_Risk_Score 0.0, and Avg_Amount_Last_7d equal to Amount_INR |
| MinimalForm.MinimalIsFullWithDefaults | src/app.py:52-74 | the minimal transaction is the one the full form builds from answers its widgets accept (noon, age 18, a manual 365 days, no device change, ...) |
| MinimalForm.Submit | src/app.py:77-84 | the prepared frame always exists, has the feature columns in order and equals the dict literal |
| MinimalForm.LabelText | src/app.py:93 | the label text is "Fraud" exactly when the label is 1, else "Legit" |

## Left out

- The Streamlit widgets, page set-up, `st.info`/`st.warning`/`st.error`/`st.success` calls and the rerun-per-interaction model: presentation. The warning is the `warned` result of `FullForm.Submit`; the widgets' bounds are the `WidgetBounds` predicates.
- Loading the CatBoost model and `predict_proba`/`predict` (app.py:6-8, 117-118; src/app.py:7-9, 87-88): an opaque foreign library. The label it returns is a parameter of the label-text functions.
- Formatting the probability to four decimals and the caption with the date and time (app.py:121, 129; src/app.py:92): float formatting and presentation.
- `datetime.date.today()` and `datetime.datetime.now()` as widget defaults: clock input; the dates and the time are parameters.
- Floating point: Amount_INR, Avg_Amount_Last_7d and IP_Risk_Score are carried as their Python `repr` text, so the float widgets' bounds are not stated: the amount's [0, 10000000] (app.py:31) and the 7-day average's [0, 1000000] (app.py:77).
- `int(...)` and `float(...)` in the dict literal: the values are already of those types, so the casts are the identity and are not written.
- Frame.Select: for a frame with two columns of the same name it takes the first, where pandas would return both; its KeyError lists a missing name once per time it is requested, where pandas lists it once and words the error differently when no name is found. The frames built here have distinct names and every requested column (`FullForm.NewTxnNamesDistinct`, `MinimalForm.SameSchemaAsFullForm`, both `Submit` methods), so neither difference arises.
- pandas frame internals (dtypes, the index): the one-row frame is an ordered sequence of (name, cell) columns.
