/**
 * The browser's durable `quizAnswers` slot. The quiz screen writes it after
 * every answer; the thank-you screen reads it once on mount.
 */
module Storage {
  import opened Wrappers
  import opened Answers

  /**
   * The text held in the slot: either what `JSON.stringify` produced for a
   * record, or text that `JSON.parse` rejects (possibly the empty string).
   */
  datatype SlotText = Serialized(record: QuizAnswer) | Unparseable(text: string)

  /** JavaScript truthiness of the stored string: only the empty string is falsy. */
  predicate IsTruthy(t: SlotText)
  {
    match t
    case Serialized(_) => true
    case Unparseable(text) => text != ""
  }

  /** `JSON.parse`: a serialized record comes back unchanged, anything else fails. */
  function Parse(t: SlotText): (r: Option<QuizAnswer>)
    ensures r.Some? <==> t.Serialized?
    ensures forall a: QuizAnswer :: t == Serialized(a) ==> r == Some(a)
  {
    match t
    case Serialized(a) => Some(a)
    case Unparseable(_) => None
  }

  /** The process-wide key-value store, reduced to its one slot. */
  class LocalStorage {
    var quizAnswers: Option<SlotText>

    constructor (initial: Option<SlotText>)
      ensures quizAnswers == initial
    {
      quizAnswers := initial;
    }
  }
}
