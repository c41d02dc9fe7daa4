/**
 * The chat screen's view model: an append-only transcript and the rule-based assistant that
 * answers each user message by keyword, using today's step count or calories when asked.
 */
module Chat {
  import opened Wrappers
  import opened Text
  import opened Numbers

  /** A transcript entry; its UUID is not modelled. */
  datatype Message = Message(text: string, isUser: bool)

  const Welcome := "Hello! I'm your fitness assistant. Ask me about your workouts, steps, or for fitness advice."
  const HelpText := "I'm here to help with your fitness journey. You can ask about your steps, workouts, calories, or request fitness advice."
  const WorkoutSummary := "Based on your recent workouts, you've been most consistent with running. Your average workout duration is 45 minutes, which is excellent for cardiovascular health."
  const StepFailure := "I couldn't retrieve your step data. Make sure Health permissions are enabled."
  const CalorieFailure := "I couldn't retrieve your calorie data. Make sure Health permissions are enabled."

  const StepsBehind := "You're a bit behind today. Try to get some more steps in!"
  const StepsWell := "You're doing well, but try to reach 10,000 steps for optimal health benefits."
  const VeryActive := "Great job! You're very active today."
  const CaloriesLow := "Try to increase your activity level to burn more calories."
  const CaloriesGood := "You're making good progress toward your daily activity goals."

  /** The eight fitness tips. */
  const Tips: seq<string> := [
    "Try to get at least 150 minutes of moderate aerobic activity or 75 minutes of vigorous aerobic activity a week.",
    "Strength training exercises for all major muscle groups at least twice a week can help improve overall fitness.",
    "Stay hydrated! Drink water before, during, and after your workout.",
    "Make sure to include rest days in your fitness routine to allow your body to recover.",
    "Consistency is key for fitness results. Even short daily workouts are better than occasional intense sessions.",
    "Consider tracking your workouts to monitor progress and stay motivated.",
    "Mix up your routine to prevent plateaus and keep exercise interesting.",
    "Proper form is more important than the amount of weight you lift or how many reps you do."
  ]

  /** Which kind of answer a message gets. */
  datatype Route = Steps | Workouts | Calories | Advice | Help

  /**
   * The keyword routing of `generateResponse`, on the lower-cased message: "step" wins over
   * "workout"/"exercise", which win over "calorie", which wins over "advice"/"tip".
   */
  function RouteOf(text: string): (r: Route)
    ensures var l := Lower(text);
      && (r == Steps <==> Contains(l, "step"))
      && (r == Workouts <==> !Contains(l, "step") && (Contains(l, "workout") || Contains(l, "exercise")))
      && (r == Calories <==> !Contains(l, "step") && !Contains(l, "workout") && !Contains(l, "exercise") && Contains(l, "calorie"))
      && (r == Help <==> !Contains(l, "step") && !Contains(l, "workout") && !Contains(l, "exercise") && !Contains(l, "calorie")
                         && !Contains(l, "advice") && !Contains(l, "tip"))
  {
    var l := Lower(text);
    if Contains(l, "step") then Steps
    else if Contains(l, "workout") || Contains(l, "exercise") then Workouts
    else if Contains(l, "calorie") then Calories
    else if Contains(l, "advice") || Contains(l, "tip") then Advice
    else Help
  }

  /** Routing does not depend on letter case. */
  lemma RouteIgnoresCase(text: string)
    ensures RouteOf(Lower(text)) == RouteOf(text)
  {
    LowerIdempotent(text);
  }

  /** The comment on a step count: below 5000, below 8000, or at least 8000. */
  function StepVerdict(count: int): (v: string)
    ensures v == StepsBehind <==> count < 5000
    ensures v == StepsWell <==> 5000 <= count < 8000
    ensures v == VeryActive <==> 8000 <= count
  {
    if count < 5000 then StepsBehind else if count < 8000 then StepsWell else VeryActive
  }

  function StepSentence(amount: string): string {
    "Today you've taken " + amount + " steps. "
  }

  /**
   * The reply to a step question. `amount` is the formatted step count; its grouping commas
   * are removed before `Int(_)`, and an amount that does not parse gets no comment.
   */
  function StepReply(amount: Fetch<string>): (r: string)
    ensures amount.Failure? ==> r == StepFailure
    ensures amount.Success? ==> |StepSentence(amount.value)| <= |r| && r[..|StepSentence(amount.value)|] == StepSentence(amount.value)
    ensures amount.Success? && ParseInt(RemoveChar(amount.value, ',')).None? ==> r == StepSentence(amount.value)
    ensures amount.Success? && ParseInt(RemoveChar(amount.value, ',')).Some? ==>
      r == StepSentence(amount.value) + StepVerdict(ParseInt(RemoveChar(amount.value, ',')).value)
  {
    match amount
    case Failure => StepFailure
    case Success(a) =>
      StepSentence(a) + match ParseInt(RemoveChar(a, ',')) {
        case Some(n) => StepVerdict(n)
        case None => ""
      }
  }

  /** A step count printed with grouping commas is read back, so the comment matches the count. */
  lemma StepReplyOfCount(n: nat)
    requires n <= INT64_MAX
    ensures StepReply(Success(FormatDecimal(n))) == StepSentence(FormatDecimal(n)) + StepVerdict(n)
  {
    FormatDecimalRoundTrip(n);
  }

  /** The comment on today's calories, compared before truncation. */
  function CalorieVerdict(kcal: real): (v: string)
    ensures v == CaloriesLow <==> kcal < 300.0
    ensures v == CaloriesGood <==> 300.0 <= kcal < 600.0
    ensures v == VeryActive <==> 600.0 <= kcal
  {
    if kcal < 300.0 then CaloriesLow else if kcal < 600.0 then CaloriesGood else VeryActive
  }

  /** The reply to a calorie question; the sentence shows the calories truncated to a whole number. */
  function CalorieReply(kcal: Fetch<real>): (r: string)
    ensures kcal.Failure? ==> r == CalorieFailure
    ensures kcal.Success? ==> r == "Today you've burned approximately " + IntToString(Truncate(kcal.value)) + " calories. " + CalorieVerdict(kcal.value)
  {
    match kcal
    case Failure => CalorieFailure
    case Success(c) => "Today you've burned approximately " + IntToString(Truncate(c)) + " calories. " + CalorieVerdict(c)
  }

  /**
   * The assistant's answer to `text`, given the step and calorie fetch results and the tip
   * drawn for an advice question.
   */
  function Reply(text: string, steps: Fetch<string>, kcal: Fetch<real>, tip: string): (r: string)
    ensures RouteOf(text) == Steps ==> r == StepReply(steps)
    ensures RouteOf(text) == Workouts ==> r == WorkoutSummary
    ensures RouteOf(text) == Calories ==> r == CalorieReply(kcal)
    ensures RouteOf(text) == Advice ==> r == tip
    ensures RouteOf(text) == Help ==> r == HelpText
  {
    match RouteOf(text)
    case Steps => StepReply(steps)
    case Workouts => WorkoutSummary
    case Calories => CalorieReply(kcal)
    case Advice => tip
    case Help => HelpText
  }

  /** `getRandomFitnessTip`: one of the eight tips. */
  method RandomFitnessTip() returns (tip: string)
    ensures tip in Tips
  {
    var k :| 0 <= k < |Tips|;
    tip := Tips[k];
  }

  /** `m` is an assistant message answering `text`, with some tip for an advice question. */
  predicate IsAnswer(m: Message, text: string, steps: Fetch<string>, kcal: Fetch<real>) {
    !m.isUser && exists tip :: tip in Tips && m.text == Reply(text, steps, kcal, tip)
  }

  class ChatViewModel {
    var messages: seq<Message>

    /** The transcript starts with the assistant's welcome. */
    constructor ()
      ensures messages == [Message(Welcome, false)]
    {
      messages := [Message(Welcome, false)];
    }

    /**
     * `sendMessage` followed by its (here synchronous) `generateResponse`: the user's message,
     * then exactly one assistant message, are appended; nothing earlier changes.
     * `steps` and `kcal` are what HealthKit delivers when the route asks for them.
     */
    method SendMessage(text: string, steps: Fetch<string>, kcal: Fetch<real>)
      modifies this
      ensures |messages| == |old(messages)| + 2
      ensures messages[..|old(messages)|] == old(messages)
      ensures messages[|old(messages)|] == Message(text, true)
      ensures IsAnswer(messages[|old(messages)| + 1], text, steps, kcal)
    {
      messages := messages + [Message(text, true)];
      ghost var answer := GenerateResponse(text, steps, kcal);
      assert messages == old(messages) + [Message(text, true), answer];
    }

    /** `generateResponse`: routes the message and appends the one answer. */
    method GenerateResponse(text: string, steps: Fetch<string>, kcal: Fetch<real>) returns (ghost answer: Message)
      modifies this
      ensures messages == old(messages) + [answer]
      ensures IsAnswer(answer, text, steps, kcal)
    {
      var lowercaseText := Lower(text);
      var responseText: string;
      ghost var tip := Tips[0];
      if Contains(lowercaseText, "step") {
        responseText := StepReply(steps);
      } else if Contains(lowercaseText, "workout") || Contains(lowercaseText, "exercise") {
        responseText := WorkoutSummary;
      } else if Contains(lowercaseText, "calorie") {
        responseText := CalorieReply(kcal);
      } else if Contains(lowercaseText, "advice") || Contains(lowercaseText, "tip") {
        responseText := RandomFitnessTip();
        tip := responseText;
      } else {
        responseText := HelpText;
      }
      assert tip in Tips && responseText == Reply(text, steps, kcal, tip);
      assert IsAnswer(Message(responseText, false), text, steps, kcal);
      messages := messages + [Message(responseText, false)];
      answer := Message(responseText, false);
    }
  }
}
