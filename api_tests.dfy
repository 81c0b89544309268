// The test endpoint of the admin API (api/tests.py): each submitted text is
// analysed as a content of the given type, and every analysis is reported
// as a DTO whose empty fields are replaced by fixed labels.
//
// The analysis itself (translation, company detection, the assistant) is a
// parameter here, and so is the rendering of a company match as a string.
module ApiTests {
  import opened Wrappers
  import opened Orm
  import opened ContentAnalysis

  datatype ContentDto = ContentDto(text: string)

  datatype AnalysisDto = AnalysisDto(
    company: string,
    companyMatch: string,
    originalText: Option<string>,
    originalLanguage: Option<string>,
    translatedText: Option<string>,
    manaAssistantResult: string,
    manaAssistantScore: real,
    status: string,
    statusException: string)

  /** `{"content": contentDto, "analysis": analysesDto}`. */
  datatype TestResult = TestResult(content: ContentDto, analysis: seq<AnalysisDto>)

  const NO_COMPANY := "NO_COMPANY"
  const NO_MATCH := "NO_MATCH"
  const NOT_EVALUATED := "NOT_EVALUATED"
  const LABEL_NON_MANA := "NON_MANA"
  const LABEL_OUI_MANA := "OUI_MANA"

  /** `a.company if a.company else "NO_COMPANY"`: an empty name counts as none. */
  function CompanyLabel(company: Option<string>): (r: string)
    ensures r == NO_COMPANY <==> company.None? || company.value == "" || company.value == NO_COMPANY
    ensures r != NO_COMPANY ==> company == Some(r)
  {
    if company.Some? && company.value != "" then company.value else NO_COMPANY
  }

  /** The assistant's flag as a label: 0 is NON_MANA, 1 is OUI_MANA, anything else (or none) is NOT_EVALUATED. */
  function ManaAssistantResult(flag: Option<int>): (r: string)
    ensures r == LABEL_NON_MANA <==> flag == Some(0)
    ensures r == LABEL_OUI_MANA <==> flag == Some(1)
    ensures r == NOT_EVALUATED <==> flag != Some(0) && flag != Some(1)
  {
    if flag == Some(0) then LABEL_NON_MANA
    else if flag == Some(1) then LABEL_OUI_MANA
    else NOT_EVALUATED
  }

  /** `a.mana_assistant_score if a.mana_assistant_score else 0`: a missing score is reported as 0. */
  function ManaAssistantScore(score: Option<real>): (r: real)
    ensures score.Some? ==> r == score.value
    ensures score.None? ==> r == 0.0
  {
    if score.Some? && score.value != 0.0 then score.value else 0.0
  }

  /** `str(a.status)`: the enum member's qualified name, or "None". */
  function StatusText(status: Option<AnalysisStatus>): string
  {
    match status
    case None => "None"
    case Some(FailedAtTranslation) => "AnalysisStatus.failed_at_translation"
    case Some(NoCompanies) => "AnalysisStatus.no_companies"
    case Some(OtherException) => "AnalysisStatus.other_exception"
    case Some(Completed) => "AnalysisStatus.completed"
    case Some(NoContent) => "AnalysisStatus.no_content"
  }

  /** Distinct statuses are reported as distinct strings, so the status can be read back from the DTO. */
  lemma StatusTextInjective(a: Option<AnalysisStatus>, b: Option<AnalysisStatus>)
    requires StatusText(a) == StatusText(b)
    ensures a == b
  {
  }

  /** `str(a.status_exception)`. */
  function ExceptionText(e: Option<string>): (r: string)
    ensures e.Some? ==> r == e.value
    ensures e.None? ==> r == "None"
  {
    if e.Some? then e.value else "None"
  }

  /** The DTO `analyse_test_contents` builds for one analysis. */
  function AnalysisDtoOf(a: Analysis, render: CompanyMatchJson -> string): AnalysisDto
  {
    AnalysisDto(
      CompanyLabel(a.company),
      if a.companyMatch.Some? then render(a.companyMatch.value) else NO_MATCH,
      a.body.originalText,
      a.body.originalLanguage,
      a.body.translatedText,
      ManaAssistantResult(a.body.flag),
      ManaAssistantScore(a.body.manaAssistantScore),
      StatusText(a.body.status),
      ExceptionText(a.body.statusException))
  }

  /** A new content of the given type; it is never stored, so its id is irrelevant. */
  function TestContent(contentType: ContentType, text: string): Content
  {
    Content(0, contentType, text, None, None)
  }

  /**
   * What `analyse_test_contents` returns: one result per submitted content,
   * in order, each with one DTO per analysis the engine returns for it.
   */
  function TestResults(contents: seq<ContentDto>, contentType: ContentType,
                       analyse: Content -> seq<Analysis>, render: CompanyMatchJson -> string): (r: seq<TestResult>)
    ensures |r| == |contents|
    ensures forall i :: 0 <= i < |r| ==> r[i].content == contents[i]
    ensures forall i :: 0 <= i < |r| ==>
      var analyses := analyse(TestContent(contentType, contents[i].text));
      && |r[i].analysis| == |analyses|
      && (forall j :: 0 <= j < |analyses| ==> r[i].analysis[j] == AnalysisDtoOf(analyses[j], render))
  {
    seq(|contents|, i requires 0 <= i < |contents| =>
      var analyses := analyse(TestContent(contentType, contents[i].text));
      TestResult(contents[i], seq(|analyses|, j requires 0 <= j < |analyses| => AnalysisDtoOf(analyses[j], render))))
  }

  /** Needed by AnalyseTestContents: one more content appends one result. */
  lemma TestResultsSnoc(contents: seq<ContentDto>, c: ContentDto, contentType: ContentType,
                        analyse: Content -> seq<Analysis>, render: CompanyMatchJson -> string, dtos: seq<AnalysisDto>)
    requires var analyses := analyse(TestContent(contentType, c.text));
      |dtos| == |analyses| && forall j :: 0 <= j < |analyses| ==> dtos[j] == AnalysisDtoOf(analyses[j], render)
    ensures TestResults(contents + [c], contentType, analyse, render) ==
      TestResults(contents, contentType, analyse, render) + [TestResult(c, dtos)]
  {
    var l := TestResults(contents + [c], contentType, analyse, render);
    var r := TestResults(contents, contentType, analyse, render) + [TestResult(c, dtos)];
    assert l[|contents|].analysis == dtos;
    forall i | 0 <= i < |contents| ensures l[i] == r[i] {
      assert (contents + [c])[i] == contents[i];
    }
  }

  /** An analysis without a company, match, flag or score gets the four default labels. */
  lemma EmptyAnalysisDefaults(a: Analysis, render: CompanyMatchJson -> string)
    requires a.company.None? && a.companyMatch.None? && a.body.flag.None? && a.body.manaAssistantScore.None?
    ensures var d := AnalysisDtoOf(a, render);
      d.company == NO_COMPANY && d.companyMatch == NO_MATCH &&
      d.manaAssistantResult == NOT_EVALUATED && d.manaAssistantScore == 0.0
  {
  }

  /** The labels for one analysis. */
  method AnalysisToDto(a: Analysis, render: CompanyMatchJson -> string) returns (d: AnalysisDto)
    ensures d == AnalysisDtoOf(a, render)
  {
    var company := if a.company.Some? && a.company.value != "" then a.company.value else NO_COMPANY;
    var companyMatch := if a.companyMatch.Some? then render(a.companyMatch.value) else NO_MATCH;
    var manaAssistantResult := NOT_EVALUATED;
    if a.body.flag == Some(0) {
      manaAssistantResult := LABEL_NON_MANA;
    } else if a.body.flag == Some(1) {
      manaAssistantResult := LABEL_OUI_MANA;
    }
    var score := if a.body.manaAssistantScore.Some? && a.body.manaAssistantScore.value != 0.0
      then a.body.manaAssistantScore.value else 0.0;
    d := AnalysisDto(company, companyMatch, a.body.originalText, a.body.originalLanguage, a.body.translatedText,
      manaAssistantResult, score, StatusText(a.body.status), ExceptionText(a.body.statusException));
  }

  /** `analyse_test_contents(contents, content_type)`. */
  method AnalyseTestContents(contents: seq<ContentDto>, contentType: ContentType,
                             analyse: Content -> seq<Analysis>, render: CompanyMatchJson -> string)
      returns (results: seq<TestResult>)
    ensures results == TestResults(contents, contentType, analyse, render)
  {
    results := [];
    for i := 0 to |contents|
      invariant results == TestResults(contents[..i], contentType, analyse, render)
    {
      var analysis := analyse(TestContent(contentType, contents[i].text));
      var analysesDto: seq<AnalysisDto> := [];
      for j := 0 to |analysis|
        invariant |analysesDto| == j
        invariant forall k :: 0 <= k < j ==> analysesDto[k] == AnalysisDtoOf(analysis[k], render)
      {
        var d := AnalysisToDto(analysis[j], render);
        analysesDto := analysesDto + [d];
      }
      assert contents[..i + 1] == contents[..i] + [contents[i]];
      TestResultsSnoc(contents[..i], contents[i], contentType, analyse, render, analysesDto);
      results := results + [TestResult(contents[i], analysesDto)];
    }
    assert contents[..|contents|] == contents;
  }
}
