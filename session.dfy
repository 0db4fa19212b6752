/** The top-level controller `App` of src/app.jsx: the phase the exam is
    in (`currentPart`) and the response ledger it hands to each segment. */
module Session {

  import opened Wrappers
  import opened Ledger

  /** `"welcome"`, `"part1"`, `"part2"`, `"part3"`, `"results"`. */
  datatype Phase = Welcome | Part1 | Part2 | Part3 | Results

  /** What the ledger can hold in each phase: nothing on the welcome screen,
      no later part's answer before that part, and no holes in the answer
      lists. */
  ghost predicate Consistent(phase: Phase, responses: Responses) {
    && (phase == Welcome ==> responses == Empty)
    && (phase == Part1 ==> responses.partTwo.None? && responses.partThree.None?)
    && (phase == Part2 ==> responses.partThree.None?)
    && NoHoles(ListOf(responses, PartOne))
    && NoHoles(ListOf(responses, PartThree))
  }

  class Session {
    var phase: Phase
    var responses: Responses

    ghost predicate Valid()
      reads this
    {
      Consistent(phase, responses)
    }

    constructor()
      ensures Valid()
      ensures phase == Welcome && responses == Empty
    {
      phase := Welcome;
      responses := Empty;
    }

    /** `handleStartTest`: Part 1 with an empty ledger. */
    method StartTest()
      modifies this
      ensures Valid()
      ensures phase == Part1 && responses == Empty
    {
      phase := Part1;
      responses := Empty;
    }

    /** `setTestResponses`, as the mounted segment calls it. */
    method SetResponses(updated: Responses)
      requires Consistent(phase, updated)
      modifies this
      ensures Valid()
      ensures responses == updated && phase == old(phase)
    {
      responses := updated;
    }

    /** `handlePart1Complete`. */
    method CompletePart1()
      requires Valid() && phase == Part1
      modifies this
      ensures Valid()
      ensures phase == Part2 && responses == old(responses)
    {
      phase := Part2;
    }

    /** `handlePart2Complete`. */
    method CompletePart2()
      requires Valid() && phase == Part2
      modifies this
      ensures Valid()
      ensures phase == Part3 && responses == old(responses)
    {
      phase := Part3;
    }

    /** `handlePart3Complete`. */
    method CompletePart3()
      requires Valid() && phase == Part3
      modifies this
      ensures Valid()
      ensures phase == Results && responses == old(responses)
    {
      phase := Results;
    }

    /** `handleRestart`: back to the welcome screen with an empty ledger. */
    method Restart()
      modifies this
      ensures Valid()
      ensures phase == Welcome && responses == Empty
    {
      phase := Welcome;
      responses := Empty;
    }
  }

  /** The segment phase a question part runs in. */
  function PhaseOf(part: QuestionPart): Phase {
    match part
    case PartOne => Part1
    case PartThree => Part3
  }

  /** The phase that follows a segment phase on its completion. */
  function NextPhase(p: Phase): (q: Phase)
    requires p == Part1 || p == Part2 || p == Part3
  {
    match p
    case Part1 => Part2
    case Part2 => Part3
    case Part3 => Results
  }

  /** Position of a phase in the exam, welcome first, results last. */
  function Rank(p: Phase): nat {
    match p
    case Welcome => 0
    case Part1 => 1
    case Part2 => 2
    case Part3 => 3
    case Results => 4
  }

  /** Completing a segment always moves exactly one step forward. */
  lemma NextPhaseStepsForward(p: Phase)
    requires p == Part1 || p == Part2 || p == Part3
    ensures Rank(NextPhase(p)) == Rank(p) + 1
  {
  }

  /** Recording an answer in a question part keeps the ledger consistent
      with that part's phase, when written no further than the list's end. */
  lemma RecordKeepsConsistent(responses: Responses, part: QuestionPart, index: nat, rec: QuestionRecord)
    requires Consistent(PhaseOf(part), responses)
    requires index <= |ListOf(responses, part)|
    ensures Consistent(PhaseOf(part), Record(responses, part, index, rec))
  {
    PutKeepsNoHoles(ListOf(responses, part), index, rec);
  }

  /** A full run: start, three completions, restart. The phases visited are
      the fixed order, and the run ends on the welcome screen with an empty
      ledger whatever was recorded. */
  method FullRun(answers: Responses) returns (visited: seq<Phase>, finalResponses: Responses)
    requires Consistent(Part3, answers)
    ensures visited == [Part1, Part2, Part3, Results, Welcome]
    ensures finalResponses == Empty
  {
    var app := new Session();
    app.StartTest();
    visited := [app.phase];
    app.CompletePart1();
    visited := visited + [app.phase];
    app.CompletePart2();
    visited := visited + [app.phase];
    app.SetResponses(answers);
    app.CompletePart3();
    visited := visited + [app.phase];
    app.Restart();
    visited := visited + [app.phase];
    finalResponses := app.responses;
  }
}
