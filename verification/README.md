# Online Retail II market-basket and RFM pipeline, in Dafny

This project models `mba.py`, a batch script over the Online Retail II
transaction export. The script runs these steps:

1. **Cleaning.** Parse the invoice date and turn the customer id into text.
   Then drop rows with an unparsable date, a non-positive quantity or price,
   or a cancellation invoice (an invoice id starting with `C`).
2. **Basket.** Keep the United Kingdom rows and sum the quantity per
   (invoice, description). Pivot into an invoice-by-item table. Keep the items
   found on at least 50 invoices, then turn quantities into presence flags.
3. **Rules.** The miner's association rules come in as input. The script
   sorts them by lift and takes the top 20 for display. Separately it
   counts, over all rules, how often each item appears as an antecedent or
   a consequent.
   `recommend_for_product` returns the best rules whose antecedent holds a
   given product.
4. **RFM.** The snapshot is the latest purchase plus one day. Per customer
   the script computes Recency (whole days from the last purchase to the
   snapshot), Frequency (distinct invoices) and Monetary (sum of quantity ×
   unit price). Each is scored 1..4 against three quartile cut points, and
   the three scores are joined into a code such as `"431"`.

Modules follow these steps. `Transactions` holds the raw and cleaned rows.
`Basket` holds the pivot tables. `Ranking` holds the descending sort,
pandas `head` and top-n selection. `Rules` holds the rule post-processing and
`recommend_for_product`. `Rfm` holds the per-customer metrics. `Scoring`
holds `r_score`, `fm_score` and the score code. `Optional` holds the
Some/None type that stands for pandas' missing values.

Representation choices:
- Timestamps are integers counting seconds. `Timedelta(days=1)` is 86400,
  and `.days` is division by 86400 rounding down. The numerator is never
  negative here, so Dafny's division agrees with it.
- Unit prices and Monetary are `real`. Quantities are `int`.
- A pivot table is a map from invoice to a map from item. The RFM table is
  a map from customer id; their order is listed under "Left out".
- A missing description is `None`. pandas' `groupby` drops rows whose key
  is missing, so such a row joins no basket group.

Three behaviours of the code that are easy to misread:
- The customer id is converted to text (mba.py:32) before the missing-value
  drop (mba.py:34). A missing id becomes the text `"nan"` (pandas 2.x), so the drop never
  removes a row for its customer id. All such rows are then aggregated as
  one customer `"nan"`. `Transactions.MissingCustomerKept` states this.
- The script ends at `RFM_Score` (mba.py:189-193). It assigns no named
  segments, so no segment classifier is modelled.
- The popularity filter (mba.py:61) counts the invoices whose summed
  quantity of an item is positive. For cleaned rows that is the number of
  distinct invoices carrying the item; `Basket.CountIsDistinctInvoices`
  proves it.

## Model

| member | source | states |
|---|---|---|
| Transactions.CustomerText | mba.py:32 | A present customer id is kept as it is. A missing one becomes the text "nan". |
| Transactions.Clean | mba.py:31-37 | Every surviving row has a parsed date, quantity > 0, unit price > 0 and an invoice id not starting with "C". Every input row meeting those conditions survives, and every output row comes from such an input row. The output is as long as the input exactly when every row qualifies. |
| Transactions.CleanAppend | mba.py:34-37 | Cleaning distributes over concatenation, so the surviving rows keep their original order. |
| Transactions.CleanSingle | mba.py:34-37 | A single row survives exactly when it meets the four conditions. |
| Transactions.MissingCustomerKept | mba.py:32-34 | A row whose only defect is a missing customer id survives cleaning, under customer "nan". |
| Basket.UkRows | mba.py:48 | The result keeps exactly the input rows whose country is "United Kingdom", each as many times as it occurs in the input, and no other row. |
| Basket.GroupQty | mba.py:51-53 | Over positive quantities, a group's summed quantity is never negative. `Basket.GroupQtyPositive` and `Basket.AbsentPairIsZero` state when it is positive and when it is 0. |
| Basket.QtyTable | mba.py:51-56 | The table has one row per invoice and one column per description, and every invoice meets every item. Each cell is the summed quantity of that pair. |
| Basket.AbsentPairIsZero | mba.py:51-55 | A pair that no row mentions sums to 0, which is the `fillna(0)` value. |
| Basket.GroupQtyPositive | mba.py:51-53 | Over positive quantities, a pair's sum is never negative. It is positive exactly when some row mentions that pair. |
| Basket.CountIsDistinctInvoices | mba.py:61 | Over positive quantities, the count of positive cells in a column equals the number of distinct invoices carrying that item. |
| Basket.InvoiceCount | mba.py:61 | A column's positive-invoice count never exceeds the number of invoices. `Basket.CountIsDistinctInvoices` states that it is the number of distinct invoices carrying the item. |
| Basket.Popular | mba.py:61-63 | An item column is kept exactly when at least `minCount` invoices have a positive quantity of it. Every invoice row stays, and kept cells are unchanged. |
| Basket.Presence | mba.py:68 | A cell is true exactly when its quantity is > 0. Rows and columns are unchanged. |
| Basket.BuildBasket | mba.py:48-68 | The basket's invoices are the UK invoices with a described line. An item is a column exactly when it is a UK item whose positive-invoice count reaches `minCount`. A cell is true exactly when the summed UK quantity of that pair is > 0. |
| Basket.BasketCells | mba.py:48-68 | End to end over positive-quantity rows: the basket's invoices are the UK invoices with a described line. An item is a column exactly when at least `minCount` distinct UK invoices carry it. A cell is true exactly when the summed UK quantity is > 0, that is, exactly when some UK row of that invoice carries that item. |
| Basket.MarketBasket | mba.py:31-68 | The same statements for the script's pipeline, from the raw rows, with threshold 50. |
| Basket.PopularKeepsAll | mba.py:61-63 | A threshold every column meets removes no column. |
| Basket.ThreeInvoiceExample | mba.py:48-68 | Take invoices {1: A, B}, {2: A, B}, {3: A} with threshold 2. Both items keep their column, and invoice 3 shows A but not B. |
| Ranking.SortDesc | mba.py:90 | The result is a permutation of the input, non-increasing in the key. The order among equal keys is not fixed. |
| Ranking.Head | mba.py:101 | `head(n)` is a prefix of length min(n, len) for n ≥ 0, and max(0, len + n) for negative n. |
| Ranking.PrefixDominates | mba.py:101 | In a descending list, no element a prefix leaves out has a larger key than an element it keeps. |
| Ranking.TopN | mba.py:145-149 | Sort then `head(n)`. The result is descending and a sub-multiset of the input, with the `head` length. No input element left out has a larger key than one kept. |
| Rules.RankRules | mba.py:90 | The rule list after the lift sort is a permutation of its input and is non-increasing in lift. |
| Rules.TopRules | mba.py:90-101 | The top-k rules (k defaults to 20) are non-increasing in lift, with length min(k, number of rules) for k ≥ 0. They are drawn from the input, and no rule left out has a higher lift than a rule kept. |
| Rules.Matching | mba.py:138-139 | A rule keeps its multiplicity in the result when `product` is an exact member of its antecedent set. Otherwise it does not appear. |
| Rules.Recommend | mba.py:137-149 | `top_n` defaults to 5. Every returned rule has `product` in its antecedents. The result is non-increasing in lift and drawn from the input. Its length is min(top_n, number of matching rules) for top_n ≥ 0. It is empty when no antecedent contains `product`. No matching rule left out has a higher lift than one returned. |
| Rules.Flatten | mba.py:120-130 | In the flattened antecedents (or consequents), an item occurs once for each rule whose set contains it, counted independently by `RulesContaining`. |
| Rules.MostCommon | mba.py:123 | `value_counts().head(n)` lists distinct items of the bag, most frequent first. Its length is min(n, number of distinct items), and no item left out is more frequent than one listed. |
| Rules.NoRepeats | mba.py:123 | A list that fits inside a set of distinct items, counting repeats, lists no item twice. |
| Rules.ItemFrequencies | mba.py:120-133 | The most common antecedents (consequents), 20 by default, are distinct items ordered by the number of rules containing them. There are min(n, number of distinct items) of them, each in at least one rule. No item left out is contained in more rules than one listed. |
| Rfm.LineTotal | mba.py:159 | A row with positive quantity and price has a positive total. A zero quantity or price gives 0. |
| Rfm.MaxDate | mba.py:160 | The result is missing exactly for no rows. Otherwise it is a date some row has, and no row has a later one. |
| Rfm.Snapshot | mba.py:160 | The snapshot is at least one day after every purchase, and exactly one day after the latest. |
| Rfm.RowsOf | mba.py:162 | A customer's group holds exactly that customer's rows, each as many times as it occurs in the table. |
| Rfm.LastPurchase | mba.py:163 | A customer's last purchase is the date of one of their rows, and none of their rows is later. |
| Rfm.MetricsBySnapshot | mba.py:162-166 | Against a given snapshot, each customer's Recency is the whole days from their last purchase, Frequency is the number of distinct invoices they appear on, and Monetary is what they spent over the whole table. |
| Rfm.RfmTable | mba.py:160-166 | One entry per customer. Recency is the whole days from the customer's last purchase to the snapshot. Frequency is the number of distinct invoices the customer appears on. Monetary is the sum of quantity × unit price over the customer's rows. Every Recency is ≥ 1. A Recency is exactly 1 when the customer's last purchase falls within the day before the latest purchase, so the most recent customer has Recency 1. Frequency lies between 1 and the customer's row count. |
| Rfm.SpendOfGroup | mba.py:159-165 | Summing line totals over a customer's group gives what that customer spent over the whole table. |
| Rfm.FrequencyOfGroup | mba.py:162-164 | The distinct invoices of a customer's group are the invoices that customer appears on anywhere in the table. |
| Rfm.DaysBeforeIsOne | mba.py:160-163 | A purchase at least a day before the snapshot is at least 1 whole day old. It is exactly 1 day old when it is less than two days before. |
| Rfm.FrequencyBounds | mba.py:164 | The number of distinct invoices of a non-empty group is between 1 and the group's size. |
| Rfm.MonetaryPositive | mba.py:159-165 | Over cleaned rows, a non-empty group spends a positive amount. |
| Rfm.TableMonetaryPositive | mba.py:159-166 | Over cleaned rows, every customer's Monetary value is > 0. |
| Rfm.RecencyAntitone | mba.py:163 | A customer whose last purchase is later never has a larger Recency. |
| Scoring.RScore | mba.py:173-177 | The score is 4 exactly when x ≤ p25, at least 3 exactly when x is at or below p25 or p50, and at least 2 exactly when x is at or below one of the three cut points. A value on a cut point gets the higher score. |
| Scoring.FmScore | mba.py:179-183 | The score is 1 exactly when x ≤ p25, at most 2 exactly when x is at or below p25 or p50, and at most 3 exactly when x is at or below one of the three cut points. A value on a cut point gets the lower score. |
| Scoring.ScoresMirror | mba.py:173-183 | `r_score(x)` + `fm_score(x)` = 5 for the same cut points. |
| Scoring.ScoresMonotone | mba.py:173-183 | `r_score` is antitone and `fm_score` is monotone in x, for any cut points. |
| Scoring.OrderedBuckets | mba.py:173-183 | With p25 ≤ p50 ≤ p75, each score is the half-open interval (previous cut, next cut] of the scale. |
| Scoring.Digit | mba.py:190-192 | `str` of a score is one character in '1'..'4' that reads back as that score. |
| Scoring.ScoreCode | mba.py:189-193 | `RFM_Score` has 3 characters, each in '1'..'4', and parses back to the three scores. |
| Scoring.ParseCodeInverse | mba.py:189-193 | Every string that parses as a score code is the code of the scores it parses to. |
| Scoring.ScoreCustomer | mba.py:185-193 | The metrics are unchanged. The R score is `r_score` of Recency against the Recency cut points, and the F (M) score is `fm_score` of Frequency (Monetary) against its own cut points. So R is 4 exactly when Recency is at or below its first cut point, and F (M) is 1 exactly when Frequency (Monetary) is at or below its first cut point. The code is the three score digits and parses back to the three scores. |
| Scoring.ScoreTable | mba.py:173-193 | Every customer keeps its metrics. The R score is `r_score` of its Recency against the Recency cut points, and the F and M scores are `fm_score` of Frequency and Monetary against their own cut points. The code is the three score digits, and parses back to the three scores. For any two customers, smaller-or-equal Recency gives a greater-or-equal R score. Smaller-or-equal Frequency (Monetary) gives a smaller-or-equal F (M) score. |
| Scoring.Segmentation | mba.py:159-193 | From raw rows, the scored table has one entry per cleaned customer. Its metrics are that customer's RFM table entry over the cleaned rows, with Recency ≥ 1, Frequency ≥ 1 and Monetary > 0. Its scores are `r_score` and `fm_score` of those metrics, and its code spells them out. |
| Scoring.LatestBuyerScoresFour | mba.py:160-177 | Assume some row survives cleaning and the first Recency cut point is ≥ 1. Then some customer has Recency 1 and R score 4. |

## Left out

- CSV reading (mba.py:14), console printing, and the `to_csv` exports (mba.py:198-202) are I/O sinks with no logic.
- The column rename (mba.py:19-28) is reflected only in the record field names.
- `apriori` and `association_rules` (mba.py:72-88) are library calls whose code is not available here. Rules are an input. The `lift ≥ 1.0` threshold and the support values are not modelled. The same goes for sorting the frequent itemsets by support (mba.py:79).
- pandas `quantile` interpolation (mba.py:169-171) is done inside the library. The three cut points of each dimension are parameters (`Scoring.Cuts`).
- Date parsing with `errors="coerce"` (mba.py:31) is given as its result: a date is `Option<int>` seconds. Sub-second resolution is not modelled.
- Quantity and unit price are always present. Missing (NaN) values in those two columns are not modelled.
- Scoring.LatestBuyerScoresFour: the first Recency cut point is an assumption. That it is ≥ 1 follows from every Recency being ≥ 1, but pandas' `quantile` is not modelled, so the lemma cannot derive it.
- Transactions.CustomerText: the customer id column is read as a float (mba.py:14), so an id such as 17850 becomes the text "17850.0". The model treats the id as text that is already converted; the float formatting is not modelled.
- Float arithmetic is replaced by exact `real` arithmetic for prices and Monetary.
- `ant_freq.index[0]` and the example call (mba.py:153-155) are script glue that fails when there are no rules.
- The `apply(list)` conversions and the printed cross-sell pairs (mba.py:103-114) are presentation only. So are `rules.head(10)` in a print (mba.py:93) and the column selection in `recommend_for_product`'s return.
- `recommend_for_product`'s empty result is an empty sequence. The fact that pandas returns a frame with no columns in that case is not modelled.
- pandas orders the pivot rows and columns and the RFM table by sorted key. The model uses maps, which have no order, and its contracts fix no order among equal keys. In the script the pivot's column order reaches the miner, so it can decide which of two equal-lift rules a `head` slice keeps.
- `Rules.MostCommon` and `Rules.ItemFrequencies` are ghost functions. Listing a set's elements needs a choice, and no tie order is fixed for equal counts.
- The other scripts of the repository (placement-data summaries and charts) are not part of this model.
