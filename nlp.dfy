/** The NLTK facilities the detectors call: sentence and word tokenisers, the
    part-of-speech tagger and the English stopword list. Their results are
    inputs of the model. */
module Nlp {
  import opened Strings

  datatype Toolkit = Toolkit(
    chars: CharClasses,
    sentTokenize: string -> seq<string>,
    wordTokenize: string -> seq<string>,
    posTag: seq<string> -> seq<(string, string)>,
    stopWords: set<string>)
}
