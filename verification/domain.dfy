/** Vocabulary shared by the learning and quiz flows: learning items,
    feedback, and the classification server's messages. */
module Domain {
  import opened Wrappers

  /** A lesson (learning flow) or sign (quiz flow): its id and its word,
      the label the classifier is expected to predict. */
  datatype Sign = Sign(id: string, word: string)

  datatype Feedback = Correct | Incorrect

  /** The `data` of a `classification_result` message. `probabilities` is
      `None` when the server left the field out. */
  datatype ClassificationResult = ClassificationResult(
    prediction: string,
    confidence: real,
    probabilities: Option<map<string, real>>)

  /** One inbound text frame after `JSON.parse`, as a tagged variant:
      `data` is `None` when the message has no `data` object, and
      `Unparseable` is a frame `JSON.parse` rejected. */
  datatype Inbound =
    | ClassificationResultMsg(data: Option<ClassificationResult>)
    | PongMsg
    | OtherMsg(tag: string)
    | Unparseable

  /** The prediction the server sends when no sign was recognised. */
  const NoPrediction: string := "None"
}
