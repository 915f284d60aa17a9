/** SecurityEngine: the encoder, the two thresholds and the two corpora,
    fixed once by the constructor and only read afterwards. */
module Engine {
  import opened Corpus
  import opened Matching
  import opened Verdict

  class SecurityEngine {
    const model: Encoder
    const jailbreakThreshold: real
    const harmThreshold: real
    const jailbreakDb: Db
    const harmfulDb: Db

    /** __init__: both thresholds at their default and each corpus loaded
        from its (already read) CSV file with the engine's encoder. */
    constructor (model: Encoder, jailbreakCsv: CsvRead, harmfulCsv: CsvRead)
      ensures this.model == model
      ensures jailbreakThreshold == DefaultThreshold && harmThreshold == DefaultThreshold
      ensures jailbreakDb == LoadDataset(model, jailbreakCsv)
      ensures harmfulDb == LoadDataset(model, harmfulCsv)
    {
      this.model := model;
      jailbreakThreshold := DefaultThreshold;
      harmThreshold := DefaultThreshold;
      jailbreakDb := LoadDataset(model, jailbreakCsv);
      harmfulDb := LoadDataset(model, harmfulCsv);
    }

    /** analyze: encode the prompt, look it up in both corpora, and report.
        `None` is the encoder raising, which the caller turns into an error
        response. */
    method Analyze(prompt: string, sim: Similarity) returns (r: Option<Analysis>)
      ensures r.None? <==> model(prompt).None?
      ensures r.Some? ==>
                r.value == Report(BestMatch(model(prompt).value, jailbreakDb, sim),
                                  BestMatch(model(prompt).value, harmfulDb, sim),
                                  jailbreakThreshold, harmThreshold)
    {
      var encoded := model(prompt);
      if encoded.None? {
        return None;
      }
      var promptEmbedding := encoded.value;
      var jb := BestMatch(promptEmbedding, jailbreakDb, sim);
      var harm := BestMatch(promptEmbedding, harmfulDb, sim);
      r := Some(Report(jb, harm, jailbreakThreshold, harmThreshold));
    }

    /** analyze as written: besides the encoder, either lookup can raise (on
        a corpus loaded from a table with no data rows), and then there is no
        report at all. Whenever it does answer, the answer is the one Analyze
        gives. */
    method AnalyzeAsWritten(prompt: string, sim: Similarity) returns (r: Option<Analysis>)
      ensures r.None? <==>
                model(prompt).None? || jailbreakDb == Available([]) || harmfulDb == Available([])
      ensures r.Some? ==>
                r.value == Report(BestMatch(model(prompt).value, jailbreakDb, sim),
                                  BestMatch(model(prompt).value, harmfulDb, sim),
                                  jailbreakThreshold, harmThreshold)
    {
      var encoded := model(prompt);
      if encoded.None? {
        return None;
      }
      var promptEmbedding := encoded.value;
      var jb := BestMatchAsWritten(promptEmbedding, jailbreakDb, sim);
      if jb.Raised? {
        return None;
      }
      var harm := BestMatchAsWritten(promptEmbedding, harmfulDb, sim);
      if harm.Raised? {
        return None;
      }
      BestMatchAgreesWhenNotEmpty(promptEmbedding, jailbreakDb, sim);
      BestMatchAgreesWhenNotEmpty(promptEmbedding, harmfulDb, sim);
      r := Some(Report(jb.m, harm.m, jailbreakThreshold, harmThreshold));
    }
  }

  /** With both corpora unavailable every prompt is safe, both categories
      hidden and both scores zero. */
  lemma UnavailableCorporaAreSafe(prompt: Vector, sim: Similarity)
    ensures Report(BestMatch(prompt, Unavailable, sim), BestMatch(prompt, Unavailable, sim),
                   DefaultThreshold, DefaultThreshold)
            == Analysis(0.0, "None", 0.0, "None", "SAFE", SafeNotice)
  {
  }

  /** An engine whose corpus files could not be read answers every encodable
      prompt with the safe default. */
  method UnreadableCorporaGiveSafe(model: Encoder, prompt: string, sim: Similarity) returns (r: Option<Analysis>)
    requires model(prompt).Some?
    ensures r == Some(Analysis(0.0, "None", 0.0, "None", "SAFE", SafeNotice))
  {
    var engine := new SecurityEngine(model, ReadFailed, ReadFailed);
    r := engine.Analyze(prompt, sim);
    UnavailableCorporaAreSafe(model(prompt).value, sim);
  }

  /** An engine whose jailbreak file holds only its header: the code as
      written has no answer for an encodable prompt, the corrected lookup
      answers it. */
  method HeaderOnlyJailbreakFile(model: Encoder, prompt: string, sim: Similarity)
    returns (written: Option<Analysis>, corrected: Option<Analysis>)
    requires model(prompt).Some?
    ensures written.None? && corrected.Some?
  {
    HeaderOnlyTableLoadsEmpty(model, ["text", "category"]);
    var engine := new SecurityEngine(model, Table(["text", "category"], []), ReadFailed);
    written := engine.AnalyzeAsWritten(prompt, sim);
    corrected := engine.Analyze(prompt, sim);
  }
}
