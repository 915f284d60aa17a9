/** Best-match lookup (SecurityEngine.get_best_match): the most similar
    corpus entry to a prompt embedding. The similarity measure (cosine
    similarity in the source) is a function parameter; the lookup sees only
    the one score it gives per entry. */
module Matching {
  import opened Corpus

  /** Similarity of the prompt embedding (first) to an entry's embedding. */
  type Similarity = (Vector, Vector) -> real

  /** A mechanism's best match: its score and the category of the entry. */
  datatype Match = Match(score: real, category: string)

  /** What a lookup gives when there is no corpus to look in. */
  const Sentinel := Match(0.0, "Unknown")

  /** The row of similarity scores, one per entry, in entry order. */
  function Scores(prompt: Vector, entries: seq<Entry>, sim: Similarity): (s: seq<real>)
    ensures |s| == |entries|
    ensures forall i :: 0 <= i < |entries| ==> s[i] == sim(prompt, entries[i].embedding)
  {
    seq(|entries|, i requires 0 <= i < |entries| => sim(prompt, entries[i].embedding))
  }

  /** k is a position holding a largest score (not necessarily the first). */
  predicate IsMaxIndex(s: seq<real>, k: int)
  {
    0 <= k < |s| && forall i :: 0 <= i < |s| ==> s[i] <= s[k]
  }

  /** The highest score of a non-empty row (torch.max). */
  function MaxScore(s: seq<real>): (m: real)
    requires |s| > 0
    ensures forall i :: 0 <= i < |s| ==> s[i] <= m
    ensures exists i :: 0 <= i < |s| && s[i] == m
    decreases |s|
  {
    if |s| == 1 then s[0]
    else
      var rest := MaxScore(s[..|s| - 1]);
      if s[|s| - 1] > rest then s[|s| - 1] else rest
  }

  /** A position of a highest score of a non-empty row (torch.argmax). Its
      contract promises some maximal position and nothing about ties. */
  function ArgMax(s: seq<real>): (k: nat)
    requires |s| > 0
    ensures IsMaxIndex(s, k)
    decreases |s|
  {
    if |s| == 1 then 0
    else
      var k := ArgMax(s[..|s| - 1]);
      if s[|s| - 1] > s[k] then |s| - 1 else k
  }

  /** The maximum and the arg-maximum are computed separately; they agree
      whichever maximal position the arg-maximum settles on. */
  lemma AnyMaxIndexHoldsMaxScore(s: seq<real>, k: int)
    requires IsMaxIndex(s, k)
    ensures s[k] == MaxScore(s)
  {
    var i :| 0 <= i < |s| && s[i] == MaxScore(s);
    assert s[i] <= s[k];
  }

  /** The score and category read off a non-empty corpus: the maximum score
      and the category of the row the arg-maximum points at. */
  function Scan(prompt: Vector, entries: seq<Entry>, sim: Similarity): (m: Match)
    requires entries != []
    ensures exists k :: IsMaxIndex(Scores(prompt, entries, sim), k) &&
                        m == Match(sim(prompt, entries[k].embedding), entries[k].category)
  {
    var scores := Scores(prompt, entries, sim);
    var k := ArgMax(scores);
    AnyMaxIndexHoldsMaxScore(scores, k);
    Match(MaxScore(scores), entries[k].category)
  }

  /** The outcome of the lookup as the source has it: it can raise. */
  datatype Lookup = Found(m: Match) | Raised

  /** get_best_match as written. Only the loader's `None` is caught by the
      `not db_data` test; a corpus loaded from a table with no data rows is a
      non-empty record, so the similarity and maximum steps run on zero
      scores and raise. */
  function BestMatchAsWritten(prompt: Vector, db: Db, sim: Similarity): (r: Lookup)
    ensures r.Raised? <==> db == Available([])
    ensures db.Unavailable? ==> r == Found(Sentinel)
    ensures db.Available? && r.Found? ==>
              exists k :: IsMaxIndex(Scores(prompt, db.entries, sim), k) &&
                          r.m == Match(sim(prompt, db.entries[k].embedding), db.entries[k].category)
  {
    match db
    case Unavailable => Found(Sentinel)
    case Available(entries) => if entries == [] then Raised else Found(Scan(prompt, entries, sim))
  }

  /** The lookup as intended: an unavailable or empty corpus yields the
      sentinel; otherwise the returned score is at least every entry's score
      and is the score of the entry whose category is returned. */
  function BestMatch(prompt: Vector, db: Db, sim: Similarity): (m: Match)
    ensures (db.Unavailable? || db.entries == []) ==> m == Sentinel
    ensures db.Available? && db.entries != [] ==>
              exists k :: IsMaxIndex(Scores(prompt, db.entries, sim), k) &&
                          m == Match(sim(prompt, db.entries[k].embedding), db.entries[k].category)
  {
    match db
    case Unavailable => Sentinel
    case Available(entries) => if entries == [] then Sentinel else Scan(prompt, entries, sim)
  }

  /** Every entry's score is bounded by the score of the best match. */
  lemma BestMatchBoundsEveryEntry(prompt: Vector, entries: seq<Entry>, sim: Similarity, i: int)
    requires 0 <= i < |entries|
    ensures sim(prompt, entries[i].embedding) <= BestMatch(prompt, Available(entries), sim).score
  {
    var db := Available(entries);
    var m := BestMatch(prompt, db, sim);
    var s := Scores(prompt, db.entries, sim);
    var k :| IsMaxIndex(s, k) && m == Match(sim(prompt, db.entries[k].embedding), db.entries[k].category);
    assert s[i] <= s[k];
  }

  /** The corrected lookup differs from the written one only on an empty
      corpus. */
  lemma BestMatchAgreesWhenNotEmpty(prompt: Vector, db: Db, sim: Similarity)
    requires db != Available([])
    ensures BestMatchAsWritten(prompt, db, sim) == Found(BestMatch(prompt, db, sim))
  {
  }

  /** The input that shows the gap: a CSV file holding only the header row
      `text,category` loads, and looking anything up in it raises. */
  lemma HeaderOnlyCorpusRaises(model: Encoder, prompt: Vector, sim: Similarity)
    ensures BestMatchAsWritten(prompt, LoadDataset(model, Table(["text", "category"], [])), sim) == Raised
  {
    HeaderOnlyTableLoadsEmpty(model, ["text", "category"]);
  }

  /** The same corpus, looked up as intended, degrades to the sentinel. */
  lemma HeaderOnlyCorpusGivesSentinel(model: Encoder, prompt: Vector, sim: Similarity)
    ensures BestMatch(prompt, LoadDataset(model, Table(["text", "category"], [])), sim) == Sentinel
  {
    HeaderOnlyTableLoadsEmpty(model, ["text", "category"]);
  }
}
