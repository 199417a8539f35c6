# 藥品特搜網 — a verified model of its core logic

The app is a Streamlit front end over a hosted table service. Clinics
report which scarce drugs they have in stock. Patients search for those
drugs, wish for missing ones and see a ranking of the most wished-for
drugs. Almost all of `app6.py` and `app4.py` is HTTP, SMTP and widget code.
This project models the sequential logic inside them:

- **Record normalisers** (`LoadersV6`, `LoadersV4`). Each one turns a remote
  table's rows (a field bag per row) into fixed local records, reading every
  column with `dict.get` and a default. A row without a readable `values`
  bag makes the whole loader return its empty result, as the surrounding
  `try`/`except` does. The city loader sorts the rows by `index` and keeps
  their `name`s.
  - app6.py's drug and inventory loaders build their lists with a loop and
    `append`, so they are methods with loop invariants. Its city loader is
    one sort and one comprehension, so it is a function.
  - app4.py uses list comprehensions, so its loaders are functions.
- **Find supply** (`SupplySearch`). Four successive filters over the
  inventory:
  - by drug;
  - by `是否上架 == True`;
  - by `庫存狀態 != "缺貨"`;
  - by city, unless the chosen city is `全台灣`.

  The module also renders the payment-condition tags.
- **Leaderboard** (`Leaderboard`). The drug table sorted by `許願人數`,
  largest first, cut to its first ten rows.
- **Row-insert payloads and the supply-form guard** (`Submissions`).
- **E-mail verification gate** (`Verification`). A three-field session:
  - `is_verified`;
  - `verify_code`;
  - `email_input`.

  It is modelled as the pure transition functions `Send` and `Confirm` and
  as the class `Gate`, whose methods update the fields in place.

Shared modules:

- `Values` models Python/JSON cell values. It includes Python's `==`
  between them, where `True == 1` and lists compare element by element. It
  also includes pandas' `==` of a column against one value, under which a
  missing value (None) equals nothing, not even another None.
- `Text` covers `str()` of integers and `join`.
- `Sequences` covers order-preserving filtering and a stable sort.

Points where the code behaves differently from what one might assume, all
modelled as the code is written:

- The search drops only the exact status `缺貨`. A row whose status is
  empty or any other text is found (`SupplySearch.UnknownStatusIsFound`).
- `是否上架 == True` also accepts the value `1`.
- A drug or city that is missing (None) in the table is never matched. A
  missing chosen drug or city finds nothing
  (`SupplySearch.MissingChoiceFindsNothing`).
- app4.py's inventory loader takes `縣市1` whenever that key is present,
  even when its value is empty. It falls back to `縣市` only when `縣市1` is
  absent (`LoadersV4.EmptyNewerCityWins`).
- A wrong verification code does not use the stored code up, and sending
  again replaces the code without notice.

## Model

| member | source | states |
|---|---|---|
| LoadersV6.DrugOf | app6.py:49-55 | name read from 藥品名稱 with default 未知, category from remote 藥品分類 with default "", both counts with default 0 |
| LoadersV6.StockOf | app6.py:84-93 | clinic from remote 診所, drug from remote 藥品, city, status, conditions, note with default "", listed flag with default False |
| LoadersV6.LoadDrugs | app6.py:47-58 | one record per row in the same order, each the normalised row; the empty table when some row has no values bag |
| LoadersV6.LoadInventory | app6.py:82-97 | one record per row in the same order, each the normalised row; the empty table when some row has no values bag |
| LoadersV6.LoadCities | app6.py:68-72 | one name per row when every row has index and name; [] when one lacks either |
| LoadersV6.CitiesByIndex | app6.py:68-70 | (app4.py:46-47 is the same code) the city list is the names of a permutation of the rows that is ascending by index and keeps rows of equal index in their original order |
| LoadersV4.DrugEntryOf | app4.py:39 | name and category (from remote 藥品分類) read with dict.get, each defaulting to "" |
| LoadersV4.WishOf | app4.py:55 | drug and city read with dict.get, each defaulting to "" |
| LoadersV4.StockCity | app4.py:63 | city is 縣市1 when that key is present, otherwise 縣市 when present, otherwise "" |
| LoadersV4.StockEntryOf | app4.py:63 | clinic from remote 診所, code, drug from remote 藥品, status, conditions, note default to "", listed to False, city as StockCity |
| LoadersV4.FeedbackOf | app4.py:72 | code, drug, kind, note default to ""; the time field is read from remote 回報時間 with default "" |
| LoadersV4.LoadDrugs | app4.py:39-40 | one record per row in order, 藥品名稱 and 分類 (from 藥品分類) each defaulting to ""; [] when a row has no values bag |
| LoadersV4.LoadRequests | app4.py:55-56 | one record per row in order, 想要藥品 and 所在縣市 each defaulting to "" |
| LoadersV4.LoadInventory | app4.py:63-64 | one record per row in order; clinic from 診所, code, drug from 藥品, status, conditions, note default to "", listed to False, city as StockCity |
| LoadersV4.LoadFeedback | app4.py:72-73 | one record per row in order; the time field is read from remote 回報時間; all five default to "" |
| LoadersV4.EmptyNewerCityWins | app4.py:63 | an empty 縣市1 beside a non-empty 縣市 still gives the empty city |
| SupplySearch.FindSupply | app6.py:287-299 | the four successive filters (city only when the choice is not 全台灣) are one order-preserving filter by the conjunction of their conditions |
| SupplySearch.FindSupplySpec | app6.py:287-299 | the result is an order-preserving subsequence; every row in it has a present drug equal to the chosen one, is listed (True or 1), is not 缺貨, and has a present city equal to the chosen one unless 全台灣; every matching row is kept as often as it occurs |
| SupplySearch.MissingChoiceFindsNothing | app6.py:289-299 | a missing (None) chosen drug or city finds no row |
| SupplySearch.UnknownStatusIsFound | app6.py:295 | a listed row of the drug whose status is empty or missing is found |
| SupplySearch.OnlyListedInStockFound | app6.py:289-299 | of a listed in-stock, an unlisted and an out-of-stock row, only the first is found |
| SupplySearch.Tag | app6.py:315-318 | a tag is exactly the value's str() text between two backquotes |
| SupplySearch.ConditionTags | app6.py:312-318 | the tag line is empty only for an empty condition list; otherwise it starts and ends with a backquote |
| SupplySearch.OneCondition | app6.py:314-316 | a one-element condition list renders as that condition's tag alone |
| SupplySearch.SingleConditionUniform | app6.py:312-318 | a scalar condition renders the same as a one-element list of it |
| SupplySearch.ConditionTagsSnoc | app6.py:315 | one more condition adds the two-space bar separator and its tag at the end |
| Leaderboard.TopWished | app6.py:273 | the board exists iff all counts are numeric; it has min(10, n) rows, counts non-increasing, drawn from the table's rows without duplication |
| Leaderboard.BoardHoldsLargest | app6.py:273 | a row left off the board has a count no greater than any row on it |
| Leaderboard.BoardKeepsTieOrder | app6.py:273 | the board's rows with a given count are the first rows with that count in table order |
| Submissions.WishRow | app6.py:123-127 | the wish row has exactly the columns 許願者Email, 所在縣市, 想要藥品 in that order |
| Submissions.WishRowReadsBack | app6.py:123-127 | each wish column holds the value given for it |
| Submissions.SupplyRow | app6.py:135-142 | the supply row has exactly the columns 機構代碼, 診所名稱, 所在縣市, 提供藥品, 給付條件, 聯絡Email in that order |
| Submissions.SupplyRowReadsBack | app6.py:135-142 | each supply column holds the value given for it |
| Submissions.ConditionList | app6.py:140 | the conditions are sent as a list with one element per picked condition |
| Submissions.ConditionListReadsBack | app6.py:140 | the list sent for 給付條件 holds exactly the picked condition strings, in order |
| Submissions.SupplyRequest | app6.py:256-261 | no request exactly when the institution code or the clinic name is empty |
| Text.NatText | app6.py:210 | str() of a natural number: non-empty decimal digits with no leading zero |
| Text.IntText | app6.py:210 | str() of an integer: the digits read back as the number; a negative one is a minus sign before its magnitude |
| Text.ParseNatText | app6.py:210 | reading the digits back gives the number |
| Text.NatTextInjective | app6.py:210 | different codes have different texts |
| Text.SixDigitText | app6.py:210 | every code drawn from 100000..999999 is six digits with a non-zero first digit |
| Text.JoinSnoc | app6.py:315 | joining one more part appends the separator and that part |
| Text.JoinEnds | app6.py:315 | joining non-empty parts is empty only for no parts, and starts with the first part's first character and ends with the last part's last character |
| Text.Show | app6.py:315-318 | str() of a cell value: a string is its own text, a non-negative integer reads back as itself, a list is bracketed |
| Text.Repr | app6.py:315 | repr() of a value: a string between single quotes, anything else as str() |
| Values.PyEqTrue | app6.py:292 | a value equals True exactly when it is True or 1 |
| Values.Get | app6.py:51-54 | dict.get gives the stored value when the key is present and the default otherwise |
| Values.PyEq | app6.py:298 | Python's == is reflexive, and a None or a string equals only itself |
| Values.PdEq | app6.py:289-299 | pandas' == of a cell against a value holds only when neither is missing and Python's == holds; a present value equals itself |
| Values.MissingNeverEqual | app6.py:289 | under pandas' == a missing value equals nothing, whereas Python's None == None holds |
| Verification.Send | app6.py:205-212 | an empty e-mail changes nothing; otherwise the stored code is the text of the drawn code, reading back as it and six digits when drawn in range, and the e-mail is locked; the verified flag is unchanged |
| Verification.Confirm | app6.py:223-229 | verified iff already verified or the entry equals the stored code; code and e-mail never change; a mismatch changes nothing |
| Verification.Step | app6.py:196-229 | a verified session ignores clicks; an unverified one becomes verified only by confirming the stored code; a six-digit code stays six digits |
| Verification.Run | app6.py:196-229 | a verified session stays as it is over any clicks; an unverified one becomes verified only if some click was a confirm |
| Verification.SendReplaces | app6.py:210-212 | a second send replaces everything the first one stored |
| Verification.EarlierCodeRejected | app6.py:210-211 | after a new code is sent, the earlier code no longer verifies |
| Verification.CodeOutlivesMismatch | app6.py:224-229 | a wrong entry leaves the stored code usable |
| Verification.NoCodeNoVerification | app6.py:188-225 | without a send that had an e-mail, no sequence of clicks verifies a new session |
| Verification.CodeStaysSixDigits | app6.py:209-211 | a stored code is always six decimal digits |
| Verification.SendThenConfirm | app6.py:205-227 | sending 123456 and typing "123456" verifies; typing anything else leaves the session as the send left it |
| Verification.Gate.constructor | app6.py:188-193 | a new session is not verified, has no code and an empty e-mail |
| Verification.Gate.SendCode | app6.py:205-212 | the fields become Send of the old fields; a six-digit stored code stays six digits |
| Verification.Gate.ConfirmCode | app6.py:222-229 | reports success iff the entry equals the stored code; the fields become Confirm of the old fields |
| Verification.Gate.SubmitSupply | app6.py:239-261 | no request iff code or name is empty; otherwise the supply row carrying the code, name, city, drug and conditions as entered and the verified e-mail |
| Sequences.KeepSpec | app6.py:289 | boolean-mask filtering keeps exactly the rows passing the mask, in order, each as often as it occurs |
| Sequences.SortBySpec | app6.py:69 | the sort returns a permutation of its input, ascending by key |
| Sequences.SortByStable | app6.py:69 | the sort keeps rows with equal keys in their input order |

## Left out

- HTTP: `requests.get`/`post`, `raise_for_status` and the `data['items']` lookup. The loaders take the list of rows directly. A failed request would also give the empty result, but that path is not modelled separately.
- Whether `submit_wish`/`submit_supply` succeed. Only the payloads they send are modelled.
- `send_verification_email` and SMTP. Whether the mail is sent does not change the session, so it is left out.
- `st.secrets` loading and `st.stop`, which are configuration plumbing.
- `st.cache_data` time-to-live and `st.cache_data.clear()`. Their behaviour depends on the wall clock and the Streamlit library.
- `random.randint` and `time.sleep`. The drawn code is a parameter limited to 100000..999999.
- All rendering: markdown, charts, dataframes, spinners, balloons, `st.rerun`. Only the condition-tag text is modelled.
- pandas. A DataFrame is a sequence of records, and boolean indexing is an order-preserving filter. The `df_inventory.empty` guard at app6.py:287 is not modelled separately, because filtering no rows gives no rows.
- Cell values are null, booleans, integers, strings and lists of those. Floats, nested objects and pandas NaN are not modelled. A None cell compares as pandas compares a missing value.
- SupplySearch.FindSupply: requires the chosen drug and city to be single values, not lists. pandas compares a column with a list position by position and raises when the lengths differ; that case is not modelled.
- `Text.Repr` quotes strings without escaping quotes or backslashes inside them.
- app4.py after line 82 (the rest of `submit_wish` and app4's tabs, including its ranking aggregation) is not part of this model.
- Leaderboard.TopWished: pandas' default descending sort does not guarantee the order of equal counts. The model uses a stable sort, which keeps table order, so that order is a choice of the model and not a promise of the source. A count column with a non-numeric value gives None. pandas would raise or order such values its own way.
- Verification.Gate.SendCode: requires the session not to be verified, because the send button is shown only then (app6.py:196).
- Verification.Gate.ConfirmCode: requires the session not to be verified, because the button is shown only then. It also requires an entry of at most six characters, the `max_chars=6` of the input box.
- Verification.Gate.SubmitSupply: requires a verified session, because the form is shown only then. The city, drug and conditions come from selection widgets and are taken as given.
- LoadersV6.LoadCities: a row missing `index` or `name` gives the empty list, which is the path the surrounding `except` takes. Rows whose `index` values cannot be compared with each other are not modelled, since indexes are integers.
