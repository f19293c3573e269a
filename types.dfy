/** The record types shared by the screens and services. */
module Types {

  datatype Option<T> = None | Some(value: T)

  datatype PuzzleType = Doors | Detective | Riddle | Visual

  /** One generated Mystery-Doors puzzle; `correctIndex` indexes `options`. */
  datatype PuzzleData = PuzzleData(
    id: string, kind: PuzzleType, title: string, story: string, question: string,
    options: seq<string>, correctIndex: int, hint: string, explanation: string,
    difficultyLevel: int)

  /** One generated trivia question. */
  datatype TriviaData = TriviaData(
    question: string, options: seq<string>, correctIndex: int,
    explanation: string, category: string)

  /** The screens the application can show. */
  datatype GameState =
    | Menu | Loading | Playing | Success | GameOver | Leaderboard | Settings
    | Cooldown | Error | Chat | Generator | Tools | ImageEditor | VeoVideo
    | ComicGenerator | GamesHub | AiTrivia | AiStory | EmojiQuest

  datatype Difficulty = Easy | Medium | Hard

  datatype PlayerStats = PlayerStats(
    score: int, level: int, hintsRemaining: int, streak: int, lives: int,
    difficulty: Difficulty)

  /** A leaderboard row; `date` is the ISO timestamp of the save. */
  datatype LeaderboardEntry = LeaderboardEntry(
    name: string, score: int, level: int, date: string, difficulty: Difficulty)
}
