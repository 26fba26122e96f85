/** The AI-tool catalogue and the records the recommendation engine produces from it. */
module Catalog {
  import opened Wrappers

  /** How much of a task a tool takes over (`automation_level`). */
  datatype Level = Full | Semi | Assist

  datatype Difficulty = Beginner | Intermediate | Advanced

  datatype Pricing = Free | Freemium | Paid

  /** One catalogue row (`AITool`). `useCases` and `keywords` are comma-separated text; `rating`
      and `popularity` are the numbers the score is built from; a tool takes part only while
      `isActive` is non-zero. */
  datatype Tool = Tool(
    id: string,
    name: string,
    category: string,
    subcategory: Option<string>,
    description: string,
    websiteUrl: Option<string>,
    useCases: string,
    keywords: string,
    automationLevel: Level,
    difficulty: Difficulty,
    pricing: Pricing,
    rating: real,
    popularity: int,
    isActive: int)

  /** The text a request is read from: `${jobDescription} ${automationRequest}`. */
  function CombinedText(jobDescription: string, automationRequest: string): string {
    jobDescription + " " + automationRequest
  }

  predicate IsActive(t: Tool) {
    t.isActive != 0
  }

  /** A scored tool with the task keywords it matched. The one-line `reason` shown with it is a
      function of these (`Recommendation.Reason`). */
  datatype RecommendedTool = RecommendedTool(tool: Tool, score: real, matchedKeywords: seq<string>)

  function ScoreOf(rt: RecommendedTool): real {
    rt.score
  }

  /** Hours are held as whole tenths of an hour, the precision the engine rounds them to. */
  datatype TimeSaving = TimeSaving(percentage: int, savedTenths: int, newTenths: int)

  datatype RecommendationResult = RecommendationResult(
    category: string,
    keywords: seq<string>,
    recommended: seq<RecommendedTool>,
    automationLevel: Level,
    timeSaving: TimeSaving)
}
