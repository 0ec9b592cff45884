/**
  Quartile scoring of the RFM table: `r_score`, `fm_score` and the
  concatenated `RFM_Score` code. The three cut points of each dimension are
  parameters; pandas computes them as the 25th, 50th and 75th percentiles.
*/
module Scoring {
  import opened Optional
  import opened Transactions
  import opened Rfm

  /** A quartile score. */
  type Score = s: int | 1 <= s <= 4 witness 1

  /** The 25th, 50th and 75th percentile of one dimension. */
  datatype Cuts = Cuts(q25: real, q50: real, q75: real)

  predicate Ordered(c: Cuts)
  {
    c.q25 <= c.q50 <= c.q75
  }

  /**
    `r_score`: the first cut point `x` does not exceed decides the score,
    4 for the first, down to 1 above all three. A value on a cut point
    falls into the lower bucket, which for Recency is the higher score.
  */
  function RScore(x: real, c: Cuts): (s: Score)
    ensures s == 4 <==> x <= c.q25
    ensures s >= 3 <==> x <= c.q25 || x <= c.q50
    ensures s >= 2 <==> x <= c.q25 || x <= c.q50 || x <= c.q75
  {
    if x <= c.q25 then 4
    else if x <= c.q50 then 3
    else if x <= c.q75 then 2
    else 1
  }

  /**
    `fm_score`: the first cut point `x` does not exceed decides the score,
    1 for the first, up to 4 above all three. A value on a cut point falls
    into the lower bucket, which for Frequency and Monetary is the lower score.
  */
  function FmScore(x: real, c: Cuts): (s: Score)
    ensures s == 1 <==> x <= c.q25
    ensures s <= 2 <==> x <= c.q25 || x <= c.q50
    ensures s <= 3 <==> x <= c.q25 || x <= c.q50 || x <= c.q75
  {
    if x <= c.q25 then 1
    else if x <= c.q50 then 2
    else if x <= c.q75 then 3
    else 4
  }

  /** Recency and Frequency/Monetary use mirrored scales over the same buckets. */
  lemma ScoresMirror(x: real, c: Cuts)
    ensures RScore(x, c) + FmScore(x, c) == 5
  {
  }

  /** `r_score` is antitone and `fm_score` monotone, whatever the cut points. */
  lemma ScoresMonotone(x: real, y: real, c: Cuts)
    requires x <= y
    ensures RScore(x, c) >= RScore(y, c)
    ensures FmScore(x, c) <= FmScore(y, c)
  {
  }

  /** With ordered cut points the buckets are the half-open intervals between them. */
  lemma OrderedBuckets(x: real, c: Cuts)
    requires Ordered(c)
    ensures FmScore(x, c) == 1 <==> x <= c.q25
    ensures FmScore(x, c) == 2 <==> c.q25 < x <= c.q50
    ensures FmScore(x, c) == 3 <==> c.q50 < x <= c.q75
    ensures FmScore(x, c) == 4 <==> c.q75 < x
    ensures RScore(x, c) == 4 <==> x <= c.q25
    ensures RScore(x, c) == 3 <==> c.q25 < x <= c.q50
    ensures RScore(x, c) == 2 <==> c.q50 < x <= c.q75
    ensures RScore(x, c) == 1 <==> c.q75 < x
  {
  }

  /** The character `str(s)` gives for a score. */
  function Digit(s: Score): (ch: char)
    ensures '1' <= ch <= '4'
    ensures DigitValue(ch) == Some(s)
  {
    (48 + s) as char
  }

  /** The score a digit character stands for, if any. */
  function DigitValue(ch: char): Option<Score>
  {
    if '1' <= ch <= '4' then Some(ch as int - 48) else None
  }

  /** `R_Score.astype(str) + F_Score.astype(str) + M_Score.astype(str)`. */
  function ScoreCode(r: Score, f: Score, m: Score): (code: string)
    ensures |code| == 3
    ensures forall k | 0 <= k < |code| :: '1' <= code[k] <= '4'
    ensures ParseCode(code) == Some((r, f, m))
  {
    [Digit(r), Digit(f), Digit(m)]
  }

  /** Reads a score code back into its three scores; None for anything else. */
  function ParseCode(code: string): Option<(Score, Score, Score)>
  {
    if |code| != 3 then None
    else match (DigitValue(code[0]), DigitValue(code[1]), DigitValue(code[2]))
      case (Some(r), Some(f), Some(m)) => Some((r, f, m))
      case _ => None
  }

  /** Every string that parses as a score code is the code of what it parses to. */
  lemma ParseCodeInverse(code: string)
    ensures ParseCode(code).Some? ==>
      var (r, f, m) := ParseCode(code).value; ScoreCode(r, f, m) == code
  {
  }

  /** One row of the scored `rfm` table. */
  datatype ScoredCustomer = ScoredCustomer(
    metrics: Metrics, rScore: Score, fScore: Score, mScore: Score, code: string)

  /**
    One customer's row: the metrics unchanged, each score `r_score` or
    `fm_score` of its metric against its own cut points (so the top R score
    exactly for a Recency at or below the first cut point, the bottom F and M
    scores exactly for values at or below theirs), and a code that spells out
    the scores and reads back as them.
  */
  function ScoreCustomer(m: Metrics, rq: Cuts, fq: Cuts, mq: Cuts): (r: ScoredCustomer)
    ensures r.metrics == m
    ensures r.rScore == RScore(m.recency as real, rq)
    ensures r.fScore == FmScore(m.frequency as real, fq)
    ensures r.mScore == FmScore(m.monetary, mq)
    ensures r.code == ScoreCode(r.rScore, r.fScore, r.mScore)
    ensures r.rScore == 4 <==> m.recency as real <= rq.q25
    ensures r.fScore == 1 <==> m.frequency as real <= fq.q25
    ensures r.mScore == 1 <==> m.monetary <= mq.q25
    ensures ParseCode(r.code) == Some((r.rScore, r.fScore, r.mScore))
  {
    var r := RScore(m.recency as real, rq);
    var f := FmScore(m.frequency as real, fq);
    var mon := FmScore(m.monetary, mq);
    ScoredCustomer(m, r, f, mon, ScoreCode(r, f, mon))
  }

  /**
    Score every customer. Customers keep their metrics; the ranking each
    dimension's score induces agrees with the raw metric (Recency reversed),
    and each code spells out the three scores.
  */
  function ScoreTable(rfm: map<string, Metrics>, rq: Cuts, fq: Cuts, mq: Cuts): (s: map<string, ScoredCustomer>)
    ensures s.Keys == rfm.Keys
    ensures forall c | c in s :: s[c].metrics == rfm[c]
    ensures forall c | c in s ::
      && s[c].rScore == RScore(rfm[c].recency as real, rq)
      && s[c].fScore == FmScore(rfm[c].frequency as real, fq)
      && s[c].mScore == FmScore(rfm[c].monetary, mq)
    ensures forall c | c in s :: s[c].code == ScoreCode(s[c].rScore, s[c].fScore, s[c].mScore)
    ensures forall c | c in s :: |s[c].code| == 3 && ParseCode(s[c].code) == Some((s[c].rScore, s[c].fScore, s[c].mScore))
    ensures forall a, b | a in s && b in s && rfm[a].recency <= rfm[b].recency :: s[a].rScore >= s[b].rScore
    ensures forall a, b | a in s && b in s && rfm[a].frequency <= rfm[b].frequency :: s[a].fScore <= s[b].fScore
    ensures forall a, b | a in s && b in s && rfm[a].monetary <= rfm[b].monetary :: s[a].mScore <= s[b].mScore
  {
    var s := map c | c in rfm :: ScoreCustomer(rfm[c], rq, fq, mq);
    forall a, b | a in s && b in s
      ensures rfm[a].recency <= rfm[b].recency ==> s[a].rScore >= s[b].rScore
      ensures rfm[a].frequency <= rfm[b].frequency ==> s[a].fScore <= s[b].fScore
      ensures rfm[a].monetary <= rfm[b].monetary ==> s[a].mScore <= s[b].mScore
    {
      if rfm[a].recency <= rfm[b].recency {
        ScoresMonotone(rfm[a].recency as real, rfm[b].recency as real, rq);
      }
      if rfm[a].frequency <= rfm[b].frequency {
        ScoresMonotone(rfm[a].frequency as real, rfm[b].frequency as real, fq);
      }
      if rfm[a].monetary <= rfm[b].monetary {
        ScoresMonotone(rfm[a].monetary, rfm[b].monetary, mq);
      }
    }
    s
  }

  /** The whole segmentation from the raw rows: clean, aggregate, score. */
  function Segmentation(rows: seq<RawRow>, rq: Cuts, fq: Cuts, mq: Cuts): (s: map<string, ScoredCustomer>)
    ensures s.Keys == Customers(Clean(rows))
    ensures forall c | c in s :: c in RfmTable(Clean(rows)) && s[c].metrics == RfmTable(Clean(rows))[c]
    ensures forall c | c in s ::
      && s[c].rScore == RScore(s[c].metrics.recency as real, rq)
      && s[c].fScore == FmScore(s[c].metrics.frequency as real, fq)
      && s[c].mScore == FmScore(s[c].metrics.monetary, mq)
      && s[c].code == ScoreCode(s[c].rScore, s[c].fScore, s[c].mScore)
    ensures forall c | c in s :: s[c].metrics.recency >= 1 && s[c].metrics.frequency >= 1 && s[c].metrics.monetary > 0.0
  {
    var txns := Clean(rows);
    TableMonetaryPositive(txns);
    ScoreTable(RfmTable(txns), rq, fq, mq)
  }

  /**
    Whoever made the latest purchase gets the top Recency score, as long as
    the first Recency cut point is at least 1 -- which any percentile of
    Recency values is, since every Recency is at least 1.
  */
  lemma LatestBuyerScoresFour(rows: seq<RawRow>, rq: Cuts, fq: Cuts, mq: Cuts)
    requires Clean(rows) != []
    requires rq.q25 >= 1.0
    ensures exists c | c in Segmentation(rows, rq, fq, mq) ::
      Segmentation(rows, rq, fq, mq)[c].metrics.recency == 1 && Segmentation(rows, rq, fq, mq)[c].rScore == 4
  {
    var txns := Clean(rows);
    var m := RfmTable(txns);
    var c :| c in m && m[c].recency == 1;
    var s := Segmentation(rows, rq, fq, mq);
    assert s[c].metrics == m[c];
  }
}
