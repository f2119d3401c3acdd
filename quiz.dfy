/** Vocabulary shared by the whole service: the five quiz categories, the
    record every category stores, and what a failing call throws. */
module Quiz {

  datatype Option<T> = None | Some(value: T)

  /** The five Terra instruments. Each one names a collection of the
      document store; the five collections have the same record shape. */
  datatype Category = ASTER | CERES | MODIS | MOPITT | MISR

  /** The categories in the order the controllers list them. */
  const AllCategories: seq<Category> := [ASTER, CERES, MODIS, MOPITT, MISR]

  /** The collection name, which is also the key used in JSON replies. */
  function Name(c: Category): string {
    match c
    case ASTER => "ASTER"
    case CERES => "CERES"
    case MODIS => "MODIS"
    case MOPITT => "MOPITT"
    case MISR => "MISR"
  }

  /** One stored quiz question. The store also adds an id and two time
      stamps, which no operation of the model reads. */
  datatype QuizRecord = QuizRecord(
    question: string,
    options: seq<string>,
    correct: string,
    explanation: string)

  /** The value a failing call throws: an `Error` object, which carries a
      message, or any other value. */
  datatype Thrown = ErrorObject(message: string) | OtherValue

  /** The `details` text every error reply carries. */
  function Details(t: Thrown): string {
    if t.ErrorObject? then t.message else "Unknown error"
  }

  /** The result of a call that may throw. */
  datatype Outcome<T> = Returned(value: T) | Threw(thrown: Thrown)
}
