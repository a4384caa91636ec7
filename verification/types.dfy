/**
 The records the application passes around: quiz content, the snapshot of a
 quiz in progress, a finished attempt and the user's profile.
 JavaScript numbers are modelled as mathematical integers.
 */
module Types {
  import opened Wrappers

  /** The four screens of the main application. */
  datatype Screen = Home | Library | Settings | History

  datatype Answer = Answer(text: string, isCorrect: bool)

  datatype Question = Question(questionText: string, answers: seq<Answer>)

  /** `timeLimit` is in seconds and may be absent. */
  datatype Quiz = Quiz(id: string, title: string, timeLimit: Option<int>, questions: seq<Question>)

  /** A subject of the catalog; its icon is presentation only and is not modelled. */
  datatype Subject = Subject(id: string, name: string, quizzes: seq<Quiz>)

  /** A point-in-time snapshot of a quiz in progress. */
  datatype SavedQuizState = SavedQuizState(quizId: string, currentQuestionIndex: int, score: int, timeLeft: int)

  /** A finished attempt; `date` is a timestamp in milliseconds. */
  datatype QuizAttempt = QuizAttempt(quizId: string, quizTitle: string, score: int, totalQuestions: int, date: int)

  datatype UserProfile = UserProfile(name: string, email: string, phone: string, year: string, college: string, country: string)
}
