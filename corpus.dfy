/** The reference corpus of the firewall: a labelled example set whose texts
    are encoded once, when the engine starts (SecurityEngine._load_dataset).
    Reading the CSV file and the sentence encoder are outside the model: the
    file arrives as an already-read table (or as a read failure) and the
    encoder is a function parameter. */
module Corpus {

  datatype Option<T> = None | Some(value: T)

  /** An embedding vector; its arithmetic is never looked at here. */
  type Vector = seq<real>

  /** The sentence encoder. `None` means the call raised. */
  type Encoder = string -> Option<Vector>

  /** The `text` and `category` cells of one CSV row (meaningful only when the
      table has both columns). */
  datatype Record = Record(text: string, category: string)

  /** What reading a CSV file gives: a failure (missing file, unparsable
      content), or a table with its column names and its rows in file order. */
  datatype CsvRead = ReadFailed | Table(columns: seq<string>, rows: seq<Record>)

  /** One loaded example: the row's cells and its pre-computed embedding. */
  datatype Entry = Entry(text: string, category: string, embedding: Vector)

  /** A loaded corpus, or the `None` that the loader returns when it gives up. */
  datatype Db = Unavailable | Available(entries: seq<Entry>)

  /** The `text` column as a list, in row order. */
  function Texts(rows: seq<Record>): (texts: seq<string>)
    ensures |texts| == |rows| && forall i :: 0 <= i < |rows| ==> texts[i] == rows[i].text
  {
    seq(|rows|, i requires 0 <= i < |rows| => rows[i].text)
  }

  /** Encoding a list of texts: one vector per text, in order, or a failure
      as soon as any single encoding raises. */
  function EncodeAll(model: Encoder, texts: seq<string>): (r: Option<seq<Vector>>)
    ensures r.Some? <==> forall i :: 0 <= i < |texts| ==> model(texts[i]).Some?
    ensures r.Some? ==> |r.value| == |texts|
    ensures r.Some? ==> forall i :: 0 <= i < |texts| ==> r.value[i] == model(texts[i]).value
    decreases |texts|
  {
    if texts == [] then Some([])
    else
      match model(texts[0])
      case None => None
      case Some(v) =>
        match EncodeAll(model, texts[1..])
        case None => None
        case Some(vs) => Some([v] + vs)
  }

  /** The table holds both columns the loader insists on. */
  predicate HasRequiredColumns(columns: seq<string>)
  {
    "text" in columns && "category" in columns
  }

  /** _load_dataset: all or nothing. A read failure, a missing `text` or
      `category` column, or an encoder failure makes the whole corpus
      unavailable; otherwise every row becomes exactly one entry, in row order,
      carrying that row's embedding. */
  function LoadDataset(model: Encoder, source: CsvRead): (db: Db)
    ensures db.Available? <==>
              source.Table? && HasRequiredColumns(source.columns) &&
              forall i :: 0 <= i < |source.rows| ==> model(source.rows[i].text).Some?
    ensures db.Available? ==> |db.entries| == |source.rows|
    ensures db.Available? ==>
              forall i :: 0 <= i < |db.entries| ==>
                db.entries[i] == Entry(source.rows[i].text, source.rows[i].category,
                                       model(source.rows[i].text).value)
  {
    match source
    case ReadFailed => Unavailable
    case Table(columns, rows) =>
      if !HasRequiredColumns(columns) then Unavailable
      else
        match EncodeAll(model, Texts(rows))
        case None => Unavailable
        case Some(vs) =>
          Available(seq(|rows|, i requires 0 <= i < |rows| =>
                          Entry(rows[i].text, rows[i].category, vs[i])))
  }

  /** A table with the right header and no data rows loads as an available,
      empty corpus, not as an unavailable one. */
  lemma HeaderOnlyTableLoadsEmpty(model: Encoder, columns: seq<string>)
    requires HasRequiredColumns(columns)
    ensures LoadDataset(model, Table(columns, [])) == Available([])
  {
  }

  /** The loaded corpus does not depend on the column order of the header, nor
      on any column beyond the two it needs. */
  lemma LoadIgnoresOtherColumns(model: Encoder, c1: seq<string>, c2: seq<string>, rows: seq<Record>)
    requires HasRequiredColumns(c1) && HasRequiredColumns(c2)
    ensures LoadDataset(model, Table(c1, rows)) == LoadDataset(model, Table(c2, rows))
  {
  }
}
