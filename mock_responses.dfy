/**
 * The development-mode responder used when no live provider answers: a
 * keyword classifier with first-match-wins priority over a fixed table of
 * canned paragraphs, a placeholder translation, a length-driven canned
 * analysis and a constant transcription. The simulated latency of each
 * operation is timing only and is left out: every operation returns its
 * value directly.
 */
module MockResponses {
  import opened Common
  import opened Vendor
  import Storage

  datatype Topic = Fees | Admission | Curriculum | Rights | Default

  datatype MockEntry = MockEntry(topic: Topic, response: string)

  /** `mockEducationalResponses`, in its order. */
  const MockEducationalResponses: seq<MockEntry> := [
    MockEntry(Fees,
              "According to Kashmir's Fee Fixation Committee (FFC) regulations, private schools must adhere to the fee structure approved by the committee. Schools cannot increase fees arbitrarily and must justify any proposed increases with detailed financial statements. The committee evaluates these proposals based on factors like infrastructure improvements, teacher salaries, and educational quality. Parents can report violations to the FFC or the Directorate of School Education Kashmir."),
    MockEntry(Admission,
              "School admissions in Kashmir are regulated to ensure fairness and transparency. Private schools must reserve 25% of seats for economically disadvantaged students as per the Right to Education Act. Schools are required to publish their admission criteria and schedule well in advance. Screening tests for young children (pre-primary and primary) are prohibited. Parents should check if the school has proper recognition from the J&K Board of School Education before seeking admission."),
    MockEntry(Curriculum,
              "Schools in Kashmir should follow either the J&K Board of School Education curriculum or recognized national boards like CBSE or ICSE. The curriculum must include compulsory subjects like English, Mathematics, Science, Social Studies, and a regional language option. Additionally, schools are required to provide adequate physical education and arts education. The Director of School Education Kashmir monitors curriculum implementation across schools."),
    MockEntry(Rights,
              "Children in Kashmir have several educational rights protected by law. These include the right to free and compulsory education until age 14, protection from physical punishment or mental harassment, right to non-discrimination in education, and special provisions for differently-abled children. The J&K School Education Act along with the Right to Education Act safeguard these rights. Parents can file complaints with the local education department or child rights commission if these rights are violated."),
    MockEntry(Default,
              "I understand you have a question about education in Kashmir. While I don't have specific information on this particular topic, I can suggest contacting the Directorate of School Education Kashmir or the Fee Fixation Committee for accurate and up-to-date information. The Parent Association of Private Schools (PAPAS) in Kashmir can also provide guidance on educational policies and regulations affecting students and parents.")
  ]

  const DevNotice := "[Note: This is a development mode response. Connect a valid AI service API key for production use.]"

  const FeeWords: seq<string> := ["fee", "payment", "cost"]
  const AdmissionWords: seq<string> := ["admission", "enroll", "join"]
  const CurriculumWords: seq<string> := ["curriculum", "syllabus", "course"]
  const RightsWords: seq<string> := ["right", "protect", "law"]

  /** One test of the chain: the text includes at least one of the words. */
  predicate MentionsAny(text: string, words: seq<string>)
  {
    exists k | 0 <= k < |words| :: Contains(text, words[k])
  }

  /** The topic the if/else-if chain selects on the lower-cased message. */
  function ClassifyTopic(message: string): Topic
  {
    var lower := Lower(message);
    if MentionsAny(lower, FeeWords) then Fees
    else if MentionsAny(lower, AdmissionWords) then Admission
    else if MentionsAny(lower, CurriculumWords) then Curriculum
    else if MentionsAny(lower, RightsWords) then Rights
    else Default
  }

  datatype KeywordGroup = KeywordGroup(topic: Topic, words: seq<string>)

  /** The keyword groups in the order the chain tests them. */
  const KeywordGroups: seq<KeywordGroup> := [
    KeywordGroup(Fees, FeeWords),
    KeywordGroup(Admission, AdmissionWords),
    KeywordGroup(Curriculum, CurriculumWords),
    KeywordGroup(Rights, RightsWords)
  ]

  /** Reference classifier: the topic of the first group the text mentions, else Default. */
  function FirstMatchingTopic(groups: seq<KeywordGroup>, text: string): Topic
  {
    if groups == [] then Default
    else if MentionsAny(text, groups[0].words) then groups[0].topic
    else FirstMatchingTopic(groups[1..], text)
  }

  /** The chain is a first-match-wins scan of the keyword groups in priority order. */
  lemma ClassifyIsFirstMatch(message: string)
    ensures ClassifyTopic(message) == FirstMatchingTopic(KeywordGroups, Lower(message))
  {
    var lower := Lower(message);
    var g := KeywordGroups;
    var g1, g2, g3 := g[1..], g[2..], g[3..];
    assert g1[1..] == g2 && g2[1..] == g3 && g3[1..] == [];
    assert FirstMatchingTopic(g3, lower) == if MentionsAny(lower, RightsWords) then Rights else Default;
    assert FirstMatchingTopic(g2, lower) ==
      if MentionsAny(lower, CurriculumWords) then Curriculum else FirstMatchingTopic(g3, lower);
    assert FirstMatchingTopic(g1, lower) ==
      if MentionsAny(lower, AdmissionWords) then Admission else FirstMatchingTopic(g2, lower);
  }

  /** A message mentioning a fee resolves to fees, whatever else it mentions. */
  lemma FeeWins(message: string)
    requires Contains(Lower(message), "fee")
    ensures ClassifyTopic(message) == Fees
  {
    assert FeeWords[0] == "fee";
  }

  /** "What is the admission fee?" mentions both admission and a fee, and resolves to fees. */
  lemma AdmissionFeeIsFees()
    ensures Contains(Lower("What is the admission fee?"), "admission")
    ensures ClassifyTopic("What is the admission fee?") == Fees
  {
    var lower := Lower("What is the admission fee?");
    assert lower[12..21] == "admission";
    assert OccursAt(lower, "admission", 12);
    assert lower[22..25] == "fee";
    assert OccursAt(lower, "fee", 22);
    FeeWins("What is the admission fee?");
  }

  /** The first canned entry for a topic, or None. */
  function FindEntry(entries: seq<MockEntry>, topic: Topic): (r: Option<MockEntry>)
    ensures r.Some? ==> r.value in entries && r.value.topic == topic
    ensures r.None? ==> forall i :: 0 <= i < |entries| ==> entries[i].topic != topic
  {
    if entries == [] then None
    else if entries[0].topic == topic then Some(entries[0])
    else FindEntry(entries[1..], topic)
  }

  /** Every topic the classifier can pick has an entry, so the lookup never yields undefined. */
  lemma EveryTopicHasEntry(t: Topic)
    ensures FindEntry(MockEducationalResponses, t).Some?
  {
    var k := match t
      case Fees => 0 case Admission => 1 case Curriculum => 2 case Rights => 3 case Default => 4;
    assert MockEducationalResponses[k].topic == t;
  }

  /** `getEducationalResponse(message, previousMessages, language)`: the matched paragraph and the notice. */
  function GetEducationalResponse(message: string, history: seq<Storage.ChatRow>, language: string): (r: string)
    ensures exists e :: e in MockEducationalResponses && e.topic == ClassifyTopic(message)
                        && r == e.response + "\n\n" + DevNotice
  {
    var t := ClassifyTopic(message);
    EveryTopicHasEntry(t);
    var e := FindEntry(MockEducationalResponses, t).value;
    e.response + "\n\n" + DevNotice
  }

  /** The canned answer depends on the message alone: history and language are ignored. */
  lemma AnswerIgnoresContext(message: string, h1: seq<Storage.ChatRow>, h2: seq<Storage.ChatRow>, l1: string, l2: string)
    ensures GetEducationalResponse(message, h1, l1) == GetEducationalResponse(message, h2, l2)
  {
  }

  const UrduPlaceholder := "[Urdu translation would appear here] "
  const EnglishPlaceholder := "[English translation would appear here] "
  const TranslationNotice := "[Note: This is a development mode translation. Connect a valid AI service API key for actual translation.]"

  /** `translateText(text, targetLanguage = 'english')`: a placeholder prefix, the text verbatim, the notice. */
  function TranslateText(text: string, targetLanguage: string): (r: string)
    ensures var prefix := if targetLanguage == "urdu" then UrduPlaceholder else EnglishPlaceholder;
            && |r| == |prefix| + |text| + 2 + |TranslationNotice|
            && r[..|prefix|] == prefix
            && r[|prefix|..|prefix| + |text|] == text
            && r[|prefix| + |text|..] == "\n\n" + TranslationNotice
  {
    var prefix := if targetLanguage == "urdu" then UrduPlaceholder else EnglishPlaceholder;
    prefix + text + "\n\n" + TranslationNotice
  }

  const LengthPointPrefix := "The document appears to be "
  const LengthyPoint := LengthPointPrefix + "lengthy and detailed"
  const BriefPoint := LengthPointPrefix + "brief and concise"

  /**
   * JavaScript's `length` of a string: its UTF-16 code units, one for a character of the
   * Basic Multilingual Plane and two (a surrogate pair) for any character above U+FFFF.
   */
  function Utf16Length(s: string): (n: nat)
    ensures |s| <= n <= 2 * |s|
  {
    if s == [] then 0
    else (if s[0] as int > 0xFFFF then 2 else 1) + Utf16Length(s[1..])
  }

  /** Text made only of Basic Multilingual Plane characters has one code unit per character. */
  lemma {:induction false} BmpLengthIsSize(s: string)
    requires forall i :: 0 <= i < |s| ==> s[i] as int <= 0xFFFF
    ensures Utf16Length(s) == |s|
  {
    if s != [] {
      BmpLengthIsSize(s[1..]);
    }
  }

  /** Text made only of characters above U+FFFF has two code units per character. */
  lemma {:induction false} AstralLengthIsDouble(s: string)
    requires forall i :: 0 <= i < |s| ==> s[i] as int > 0xFFFF
    ensures Utf16Length(s) == 2 * |s|
  {
    if s != [] {
      AstralLengthIsDouble(s[1..]);
    }
  }

  /** An emoji outside the Basic Multilingual Plane is one character but two code units of `length`. */
  lemma EmojiIsTwoCodeUnits()
    ensures |"\U{1F4DA}"| == 1 && Utf16Length("\U{1F4DA}") == 2
  {
  }

  /** `analyzeDocumentContent(text)`: a canned analysis whose category and last key point follow the length. */
  function AnalyzeDocumentContent(text: string): (a: Analysis)
    ensures a.Report? && |a.keyPoints| == 3
    ensures a.category == "Comprehensive Policy" <==> Utf16Length(text) > 1000
    ensures a.category == "Brief Guideline" <==> Utf16Length(text) <= 1000
    ensures a.keyPoints[2] == LengthyPoint <==> Utf16Length(text) > 500
    ensures a.keyPoints[2] == BriefPoint <==> Utf16Length(text) <= 500
  {
    Report("Document Analysis (Development Mode)",
           if Utf16Length(text) > 1000 then "Comprehensive Policy" else "Brief Guideline",
           "This is a mock document analysis for development purposes.",
           ["This analysis is for development and testing only",
            "Connect a valid AI service API key for production use",
            LengthPointPrefix + (if Utf16Length(text) > 500 then "lengthy and detailed" else "brief and concise")],
           "Developers testing the application")
  }

  /** 501 emoji are under the 1000 threshold in characters but over it in code units, so the analysis calls them comprehensive. */
  lemma ShortEmojiTextIsComprehensive()
    ensures var t := seq(501, _ => '\U{1F4DA}');
            |t| <= 1000 && AnalyzeDocumentContent(t).category == "Comprehensive Policy"
  {
    AstralLengthIsDouble(seq(501, _ => '\U{1F4DA}'));
  }

  /** A comprehensive policy is always also described as lengthy: the two thresholds nest. */
  lemma ComprehensiveIsLengthy(text: string)
    requires AnalyzeDocumentContent(text).category == "Comprehensive Policy"
    ensures AnalyzeDocumentContent(text).keyPoints[2] == LengthyPoint
  {
  }

  const MockTranscription := "This is a mock transcription for development purposes. Connect a valid AI service API key for actual transcription."

  /** `transcribeAudio(audioBase64)`: the same text for every recording. */
  function TranscribeAudio(audio: string): (r: string)
    ensures r == MockTranscription
  {
    MockTranscription
  }
}
