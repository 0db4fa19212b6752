/** The fixed content of the mock speaking test (`testData` in src/app.jsx):
    the question lists, the cue card and the segment durations in seconds. */
module TestData {

  const Part1Duration: nat := 300
  const Part3Duration: nat := 300
  const Part2PrepTime: nat := 60
  const Part2SpeakTime: nat := 120

  const Part1Questions: seq<string> := [
    "What's your full name?",
    "Can I see your identification?",
    "Where are you from?",
    "Do you work or study?",
    "What do you like about your hometown?",
    "Do you enjoy reading books? Why or why not?",
    "What kind of books do you prefer?",
    "How often do you read?",
    "Do you think reading is important for children?",
    "What was your favorite subject in school?",
    "Do you still keep in touch with your school friends?"
  ]

  const Part3Questions: seq<string> := [
    "How has traveling changed over the past few decades?",
    "What are the benefits of traveling for young people?",
    "Do you think people travel too much nowadays?",
    "How might technology change the way we travel in the future?",
    "What are the environmental impacts of tourism?",
    "Should governments promote domestic tourism?",
    "How important is it to learn about local culture when traveling?"
  ]

  const CueCardTopic: string := "Describe a memorable journey you have taken"

  const CueCardPoints: seq<string> := [
    "Where you went",
    "Who you went with",
    "What you did there",
    "And explain why this journey was memorable for you"
  ]

  /** Spoken when the Part 2 preparation time runs out. */
  const SpeakingAnnouncement: string :=
    "Preparation time is over. Now you can start speaking about the topic."
}
