/** The response ledger `testResponses` of src/app.jsx: the answers of
    Part 1 and Part 3 as arrays indexed by question, and the single Part 2
    record. A key that was never written is absent (`None`). */
module Ledger {

  import opened Wrappers
  import opened Strings

  /** One answer of Part 1 or Part 3 (`question_number`, `question`, `answer`). */
  datatype QuestionRecord = QuestionRecord(questionNumber: string, question: string, answer: string)

  /** The Part 2 answer (`question`, `cue_card`, `answer`). */
  datatype CueCardRecord = CueCardRecord(question: string, cueCard: seq<string>, answer: string)

  /** A JavaScript array of records; writing past its end leaves holes,
      which read as `None`. */
  type RecordList = seq<Option<QuestionRecord>>

  /** `ielts_speaking_part_one`, `ielts_speaking_part_two`, `ielts_speaking_part_three`. */
  datatype Responses = Responses(partOne: Option<RecordList>, partTwo: Option<CueCardRecord>, partThree: Option<RecordList>)

  /** The two question-sequence parts. */
  datatype QuestionPart = PartOne | PartThree

  /** `{}`: nothing recorded. */
  const Empty: Responses := Responses(None, None, None)

  /** `String(index + 1).padStart(2, "0")`: the one-based question number
      with at least two digits. */
  function QuestionNumber(index: nat): string {
    PadStart(NatToDecimal(index + 1), 2, '0')
  }

  /** Question numbers are digit strings of at least two characters, and
      exactly two for the first 99 questions. */
  lemma QuestionNumberShape(index: nat)
    ensures |QuestionNumber(index)| >= 2 && AllDigits(QuestionNumber(index))
    ensures index < 99 ==> |QuestionNumber(index)| == 2
  {
    if index < 99 && index + 1 >= 10 {
      assert |NatToDecimal((index + 1) / 10)| == 1;
    }
  }

  /** The question number reads back as the one-based position, so distinct
      questions get distinct numbers. */
  lemma QuestionNumberRoundTrip(index: nat)
    ensures ParseDecimal(QuestionNumber(index)) == index + 1
  {
    var d := NatToDecimal(index + 1);
    var p := QuestionNumber(index);
    DecimalRoundTrip(index + 1);
    var z := p[..|p| - |d|];
    assert p == z + d;
    ParseLeadingZeros(z, d);
  }

  /** The record `handleNext` builds for the question at `index`: the
      answer is the transcript trimmed (`transcript.trim() || ""`). */
  function QuestionRecordOf(index: nat, question: string, transcript: string): QuestionRecord {
    QuestionRecord(QuestionNumber(index), question, Trim(transcript))
  }

  /** The stored question number reads back as the question's one-based
      position, and the question text is kept as asked. */
  lemma QuestionRecordNumber(index: nat, question: string, transcript: string)
    ensures AllDigits(QuestionRecordOf(index, question, transcript).questionNumber)
    ensures ParseDecimal(QuestionRecordOf(index, question, transcript).questionNumber) == index + 1
    ensures QuestionRecordOf(index, question, transcript).question == question
  {
    QuestionNumberRoundTrip(index);
  }

  /** The stored answer is the spoken transcript without its surrounding
      whitespace. */
  lemma QuestionRecordAnswer(index: nat, question: string, transcript: string)
    ensures Trimmed(QuestionRecordOf(index, question, transcript).answer)
    ensures |TrimStart(transcript)| <= |transcript|
    ensures PaddedAt(transcript, QuestionRecordOf(index, question, transcript).answer, |transcript| - |TrimStart(transcript)|)
  {
    TrimSpec(transcript);
  }

  /** The record the cue-card segment commits: the topic, "You should say:"
      followed by the points, and the trimmed transcript. */
  function CueCardRecordOf(topic: string, points: seq<string>, transcript: string): (r: CueCardRecord)
    ensures r.question == topic
    ensures |r.cueCard| == |points| + 1 && r.cueCard[0] == "You should say:" && r.cueCard[1..] == points
  {
    CueCardRecord(topic, ["You should say:"] + points, Trim(transcript))
  }

  /** The stored Part 2 answer is the transcript without its surrounding
      whitespace. */
  lemma CueCardRecordAnswer(topic: string, points: seq<string>, transcript: string)
    ensures Trimmed(CueCardRecordOf(topic, points, transcript).answer)
    ensures |TrimStart(transcript)| <= |transcript|
    ensures PaddedAt(transcript, CueCardRecordOf(topic, points, transcript).answer, |transcript| - |TrimStart(transcript)|)
  {
    TrimSpec(transcript);
  }

  /** `list[index] = rec` on a JavaScript array. */
  function Put(list: RecordList, index: nat, rec: QuestionRecord): (r: RecordList)
    ensures |r| == if index < |list| then |list| else index + 1
    ensures r[index] == Some(rec)
    ensures forall k :: 0 <= k < |list| && k != index ==> r[k] == list[k]
    ensures forall k :: |list| <= k < index ==> r[k] == None
  {
    if index < |list| then list[index := Some(rec)]
    else list + seq(index - |list|, _ => None) + [Some(rec)]
  }

  /** Every position up to the end holds a record. */
  predicate NoHoles(list: RecordList) {
    forall k :: 0 <= k < |list| ==> list[k].Some?
  }

  /** Writing at a position up to the current length leaves no hole. */
  lemma PutKeepsNoHoles(list: RecordList, index: nat, rec: QuestionRecord)
    requires NoHoles(list) && index <= |list|
    ensures NoHoles(Put(list, index, rec))
  {
  }

  /** Re-answering a question replaces its record: after two writes at the
      same position only the later one is there, and no duplicate appears. */
  lemma PutOverwrites(list: RecordList, index: nat, earlier: QuestionRecord, later: QuestionRecord)
    ensures Put(Put(list, index, earlier), index, later) == Put(list, index, later)
  {
  }

  /** The list a question part keeps, empty while absent. */
  function ListOf(responses: Responses, part: QuestionPart): RecordList {
    match part
    case PartOne => responses.partOne.GetOr([])
    case PartThree => responses.partThree.GetOr([])
  }

  /** `handleNext`'s update: a shallow copy of the ledger whose list for
      `part` (created empty when absent) holds `rec` at `index`. The other
      parts' entries are untouched. */
  function Record(responses: Responses, part: QuestionPart, index: nat, rec: QuestionRecord): (r: Responses)
    ensures ListOf(r, part) == Put(ListOf(responses, part), index, rec)
    ensures r.partTwo == responses.partTwo
    ensures part == PartOne ==> r.partOne.Some? && r.partThree == responses.partThree
    ensures part == PartThree ==> r.partThree.Some? && r.partOne == responses.partOne
  {
    var list := Put(ListOf(responses, part), index, rec);
    match part
    case PartOne => responses.(partOne := Some(list))
    case PartThree => responses.(partThree := Some(list))
  }

  /** Advancing past a question, going back and advancing past it again
      leaves exactly one record there, the latest. */
  lemma ReanswerKeepsLatest(responses: Responses, part: QuestionPart, index: nat, earlier: QuestionRecord, later: QuestionRecord)
    ensures Record(Record(responses, part, index, earlier), part, index, later) == Record(responses, part, index, later)
  {
    PutOverwrites(ListOf(responses, part), index, earlier, later);
  }
}
