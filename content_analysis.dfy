// The bookkeeping of the content analysis step: reading the assistant's
// intents, dropping sentences full of social network names, the gates and
// limits applied to downloaded HTML and PDF text, collecting new tweets and
// feed items for the entities to watch, and fanning an analysis out to one
// row per company found. The NLU, the assistant, the PDF parser, the HTML
// parser, the Twitter API and the feed reader are parameters.
module ContentAnalysis {
  import opened Wrappers
  import opened PyStrings
  import opened Orm
  import Shared

  const HTML_MIME_TYPES: set<string> := {"text/html"}
  const PDF_MIME_TYPES: set<string> := {"application/pdf"}
  const RATE_LIMIT_ERROR_CODE: int := 88
  /** `for i in range(5)` around the timeline read. */
  const TIMELINE_ATTEMPTS: nat := 5

  /* ---- the assistant's answer ---- */

  datatype Intent = Intent(intent: string, confidence: real)

  /** `[intent for intent in response['intents'] if intent['intent'] == name]`. */
  function IntentsNamed(intents: seq<Intent>, name: string): (r: seq<Intent>)
    ensures |r| <= |intents|
    decreases |intents|
  {
    if intents == [] then []
    else (if intents[0].intent == name then [intents[0]] else []) + IntentsNamed(intents[1..], name)
  }

  /** `extract_confidence_score_from_assistant_response(response, name)`. */
  function ExtractConfidence(intents: seq<Intent>, name: string): Option<real>
  {
    var named := IntentsNamed(intents, name);
    if |named| > 0 then Some(named[0].confidence) else None
  }

  /** The score is the confidence of the first intent called `name`, and there is none without one. */
  lemma {:induction false} ExtractConfidenceFirst(intents: seq<Intent>, name: string)
    ensures ExtractConfidence(intents, name).None? <==> forall k :: 0 <= k < |intents| ==> intents[k].intent != name
    ensures ExtractConfidence(intents, name).Some? ==>
      exists k :: 0 <= k < |intents| && intents[k].intent == name &&
        ExtractConfidence(intents, name).value == intents[k].confidence &&
        forall j :: 0 <= j < k ==> intents[j].intent != name
    decreases |intents|
  {
    if intents != [] && intents[0].intent != name {
      var tail := intents[1..];
      assert IntentsNamed(intents, name) == IntentsNamed(tail, name);
      ExtractConfidenceFirst(tail, name);
      assert forall k :: 1 <= k < |intents| ==> intents[k] == tail[k - 1];
      if ExtractConfidence(tail, name).Some? {
        var k :| 0 <= k < |tail| && tail[k].intent == name &&
          ExtractConfidence(tail, name).value == tail[k].confidence &&
          forall j :: 0 <= j < k ==> tail[j].intent != name;
        assert intents[k + 1] == tail[k];
      }
    } else if intents != [] {
      assert intents[0].intent == name;
    }
  }

  /* ---- social network sentences ---- */

  /**
   * `count_social_keywords(text)`: how many distinct matches the configured
   * social keywords pattern has in the lowercased text; `findall` stands for
   * `re.findall` with that pattern.
   */
  function CountSocialKeywords(text: string, findall: string -> seq<string>): (n: nat)
    ensures n == 0 <==> findall(Lower(text)) == []
  {
    var found := findall(Lower(text));
    var distinct := set w | w in found;
    assert found != [] ==> found[0] in distinct;
    |distinct|
  }

  /** The sentences kept by `remove_social_network_sentences`, in order. */
  function KeptSentences(sentences: seq<string>, findall: string -> seq<string>): (r: seq<string>)
    ensures |r| <= |sentences|
  {
    if sentences == [] then []
    else
      var n := |sentences| - 1;
      KeptSentences(sentences[..n], findall) +
        (if CountSocialKeywords(sentences[n], findall) <= 1 then [sentences[n]] else [])
  }

  /** What `remove_social_network_sentences(text)` returns. */
  function WithoutSocialSentences(text: string, findall: string -> seq<string>): string
  {
    Join(KeptSentences(Split(text, ". "), findall), ". ")
  }

  /** A sentence is kept exactly when it names at most one social network. */
  lemma {:induction false} KeptSentencesMembers(sentences: seq<string>, findall: string -> seq<string>)
    ensures forall x :: x in KeptSentences(sentences, findall) <==> x in sentences && CountSocialKeywords(x, findall) <= 1
  {
    if sentences != [] {
      var n := |sentences| - 1;
      KeptSentencesMembers(sentences[..n], findall);
      assert sentences == sentences[..n] + [sentences[n]];
    }
  }

  /** Sentences that all name at most one social network are all kept. */
  lemma {:induction false} QuietSentencesAllKept(sentences: seq<string>, findall: string -> seq<string>)
    requires forall k :: 0 <= k < |sentences| ==> CountSocialKeywords(sentences[k], findall) <= 1
    ensures KeptSentences(sentences, findall) == sentences
  {
    if sentences != [] {
      var n := |sentences| - 1;
      QuietSentencesAllKept(sentences[..n], findall);
      assert sentences == sentences[..n] + [sentences[n]];
    }
  }

  /** A text none of whose sentences names two social networks comes back unchanged. */
  lemma QuietTextUnchanged(text: string, findall: string -> seq<string>)
    requires forall k :: 0 <= k < |Split(text, ". ")| ==> CountSocialKeywords(Split(text, ". ")[k], findall) <= 1
    ensures WithoutSocialSentences(text, findall) == text
  {
    QuietSentencesAllKept(Split(text, ". "), findall);
    JoinSplit(text, ". ");
  }

  method RemoveSocialNetworkSentences(text: string, findall: string -> seq<string>) returns (r: string)
    ensures r == WithoutSocialSentences(text, findall)
  {
    var finalSentences: seq<string> := [];
    var sentences := Split(text, ". ");
    for i := 0 to |sentences|
      invariant finalSentences == KeptSentences(sentences[..i], findall)
    {
      assert sentences[..i + 1][..i] == sentences[..i];
      if CountSocialKeywords(sentences[i], findall) <= 1 {
        finalSentences := finalSentences + [sentences[i]];
      }
    }
    assert sentences[..|sentences|] == sentences;
    r := Join(finalSentences, ". ");
  }

  /* ---- what is worth analysing ---- */

  /**
   * `is_worth_analyzing(text)`: the NLU relevance check, `relevant`, is only
   * consulted for a text longer than the paragraph minimum.
   */
  function IsWorthAnalyzing(text: Option<string>, relevant: string -> bool): (r: bool)
    ensures r ==> text.Some? && |text.value| > Shared.MIN_LENGTH_FOR_HTML_AND_PDF_PARAGRAPHS
    ensures text.Some? && |text.value| > Shared.MIN_LENGTH_FOR_HTML_AND_PDF_PARAGRAPHS ==> (r <==> relevant(text.value))
  {
    text.Some? && |text.value| > Shared.MIN_LENGTH_FOR_HTML_AND_PDF_PARAGRAPHS && relevant(text.value)
  }

  /* ---- the content type of a download ---- */

  /** The position of the first ',' or ';' of a content-type header, or its length. */
  function ParameterStart(contentType: string): (k: nat)
    ensures k <= |contentType|
    ensures forall j :: 0 <= j < k ==> contentType[j] != ',' && contentType[j] != ';'
    ensures k < |contentType| ==> contentType[k] == ',' || contentType[k] == ';'
  {
    if contentType == [] then 0
    else if contentType[0] == ',' || contentType[0] == ';' then 0
    else 1 + ParameterStart(contentType[1..])
  }

  /** `content_type.replace(',', ';').split(';')[0].lower()`. */
  function MimeType(contentType: string): string
  {
    Lower(Split(Replace(contentType, ",", ";"), ";")[0])
  }

  /** The mime type is the lowercased header up to its first ',' or ';', so it holds neither. */
  lemma MimeTypeIsLoweredPrefix(contentType: string)
    ensures MimeType(contentType) == Lower(contentType[..ParameterStart(contentType)])
    ensures forall j :: 0 <= j < |MimeType(contentType)| ==> MimeType(contentType)[j] != ',' && MimeType(contentType)[j] != ';'
  {
    var k := ParameterStart(contentType);
    ReplaceChar(contentType, ',', ';');
    var t := MapChar(contentType, ',', ';');
    assert Replace(contentType, ",", ";") == t;
    assert t[..k] == contentType[..k];
    match FindFirst(t, ";")
    case None =>
      if k < |contentType| {
        CharOccurs(t, ';', k);
      }
      assert Split(t, ";")[0] == t;
      assert t[..k] == t;
    case Some(i) =>
      FindFirstChar(t, ';', i);
      assert Split(t, ";")[0] == t[..i];
      assert i == k;
  }

  datatype AnalysisType = TweetAnalysis | HtmlAnalysis | PdfAnalysis

  /* ---- PDF text ---- */

  /** One text block of a PDF page: its block type (0 for text) and its text. */
  datatype Block = Block(blockType: int, text: Option<string>)

  /** `' '.join(text.split()).replace("\n", " ").strip()`. */
  function Cleansed(text: string): (r: string)
    ensures '\n' !in r
  {
    var spaced := Replace(Join(Words(text), " "), "\n", " ");
    ReplaceRemovesChar(Join(Words(text), " "), '\n', " ");
    var r := Strip(spaced);
    StripKeepsOut(spaced, '\n');
    r
  }

  /** The cleansed text is the block's words joined by single spaces. */
  lemma CleansedSingleSpaced(text: string)
    ensures Cleansed(text) == Join(Words(text), " ")
    ensures SingleSpaced(Cleansed(text))
  {
    var j := Join(Words(text), " ");
    WordsAreWords(text);
    JoinWordsSingleSpaced(Words(text));
    assert !Contains(j, "\n") by {
      if Contains(j, "\n") {
        var i: nat :| i <= |j| && OccursAt(j, "\n", i);
        CharOccurs(j, '\n', i);
        assert IsSpace(j[i]);
      }
    }
    ReplaceAbsent(j, "\n", " ");
    StripUnchanged(j);
  }

  lemma StripKeepsOut(s: string, c: char)
    requires c !in s
    ensures c !in Strip(s)
  {
    var l := LStrip(s);
    assert l == s[|s| - |l|..];
    var r := RStrip(l);
    assert r == l[..|r|];
  }

  /** The blocks of all pages, in reading order. */
  function Flat(pages: seq<seq<Block>>): seq<Block>
  {
    if pages == [] then [] else pages[0] + Flat(pages[1..])
  }

  /**
   * One block of the PDF loop, from the text `whole` gathered so far: a text
   * block worth analysing is appended after a newline, other blocks leave
   * the text as it is, and None when the block would take `whole` past the
   * limit, which ends the reading of every page.
   */
  function BlockStep(whole: string, b: Block, relevant: string -> bool): Option<string>
  {
    if b.blockType != 0 || b.text.None? then Some(whole)
    else
      var cleansed := Cleansed(b.text.value);
      if !IsWorthAnalyzing(Some(cleansed), relevant) then Some(whole)
      else if |whole| + |cleansed| > Shared.TRUNCATE_TEXT_LENGTH_FOR_HTML_AND_PDF_PARAGRAPHS then None
      else Some(whole + "\n" + cleansed)
  }

  /** The PDF loop over `blocks`, from the text `whole` gathered so far. */
  function Gathered(whole: string, blocks: seq<Block>, relevant: string -> bool): string
    decreases |blocks|
  {
    if blocks == [] then whole
    else
      match BlockStep(whole, blocks[0], relevant)
      case None => whole
      case Some(longer) => Gathered(longer, blocks[1..], relevant)
  }

  /** The text of a PDF: what was gathered, without its leading newline. */
  function PdfText(pages: seq<seq<Block>>, relevant: string -> bool): string
  {
    var whole := Gathered("", Flat(pages), relevant);
    if |whole| > 0 then whole[1..] else ""
  }

  /** One block keeps the text within one newline over the limit, and only ever extends it. */
  lemma BlockStepBound(whole: string, b: Block, relevant: string -> bool)
    requires |whole| <= Shared.TRUNCATE_TEXT_LENGTH_FOR_HTML_AND_PDF_PARAGRAPHS + 1
    ensures var r := BlockStep(whole, b, relevant);
      r.Some? ==> |r.value| <= Shared.TRUNCATE_TEXT_LENGTH_FOR_HTML_AND_PDF_PARAGRAPHS + 1 && StartsWith(r.value, whole)
  {
    var r := BlockStep(whole, b, relevant);
    if r.Some? {
      assert r.value[..|whole|] == whole;
    }
  }

  /** Appending stops before the limit is passed: the newline-separated text is at most one over it. */
  lemma {:induction false} GatheredBound(whole: string, blocks: seq<Block>, relevant: string -> bool)
    requires |whole| <= Shared.TRUNCATE_TEXT_LENGTH_FOR_HTML_AND_PDF_PARAGRAPHS + 1
    ensures |Gathered(whole, blocks, relevant)| <= Shared.TRUNCATE_TEXT_LENGTH_FOR_HTML_AND_PDF_PARAGRAPHS + 1
    ensures StartsWith(Gathered(whole, blocks, relevant), whole)
    decreases |blocks|
  {
    if blocks == [] {
      assert whole[..|whole|] == whole;
    } else {
      BlockStepBound(whole, blocks[0], relevant);
      match BlockStep(whole, blocks[0], relevant)
      case None =>
        assert whole[..|whole|] == whole;
      case Some(longer) =>
        GatheredBound(longer, blocks[1..], relevant);
        StartsWithTrans(Gathered(longer, blocks[1..], relevant), longer, whole);
    }
  }

  lemma StartsWithTrans(s: string, longer: string, prefix: string)
    requires StartsWith(s, longer) && StartsWith(longer, prefix)
    ensures StartsWith(s, prefix)
  {
    assert s[..|prefix|] == s[..|longer|][..|prefix|];
  }

  /** The text taken from a PDF never exceeds the limit. */
  lemma PdfTextWithinLimit(pages: seq<seq<Block>>, relevant: string -> bool)
    ensures |PdfText(pages, relevant)| <= Shared.TRUNCATE_TEXT_LENGTH_FOR_HTML_AND_PDF_PARAGRAPHS
  {
    GatheredBound("", Flat(pages), relevant);
  }

  /** The page and block loops of the PDF branch of `retrieve_content_from_url`. */
  method ExtractPdfText(pages: seq<seq<Block>>, relevant: string -> bool) returns (text: string)
    ensures text == PdfText(pages, relevant)
  {
    ghost var target := Gathered("", Flat(pages), relevant);
    var whole := "";
    var tooLarge := false;
    var p := 0;
    while p < |pages|
      invariant 0 <= p <= |pages|
      invariant Gathered(whole, Flat(pages[p..]), relevant) == target
      decreases |pages| - p
    {
      assert pages[p..][0] == pages[p] && pages[p..][1..] == pages[p + 1..];
      whole, tooLarge := GatherPage(whole, pages[p], Flat(pages[p + 1..]), relevant);
      if tooLarge {
        break;
      }
      p := p + 1;
    }
    if !tooLarge {
      assert pages[|pages|..] == [];
    }
    text := if |whole| > 0 then whole[1..] else "";
  }

  /**
   * The block loop over one page, from the text `whole` gathered so far and
   * with the blocks of the later pages `rest`; `tooLarge` when a block would
   * pass the limit, which ends the reading of every page.
   */
  method GatherPage(whole: string, page: seq<Block>, ghost rest: seq<Block>, relevant: string -> bool)
      returns (gathered: string, tooLarge: bool)
    ensures tooLarge ==> gathered == Gathered(whole, page + rest, relevant)
    ensures !tooLarge ==> Gathered(gathered, rest, relevant) == Gathered(whole, page + rest, relevant)
  {
    ghost var goal := Gathered(whole, page + rest, relevant);
    ghost var todo := page + rest;
    gathered := whole;
    tooLarge := false;
    var b := 0;
    while b < |page|
      invariant 0 <= b <= |page|
      invariant todo == page[b..] + rest
      invariant Gathered(gathered, todo, relevant) == goal
      decreases |page| - b
    {
      var block := page[b];
      SliceCons(page, b, rest);
      todo := todo[1..];
      if block.blockType == 0 && block.text.Some? {
        var cleansed := Cleansed(block.text.value);
        if IsWorthAnalyzing(Some(cleansed), relevant) {
          if |gathered| + |cleansed| > Shared.TRUNCATE_TEXT_LENGTH_FOR_HTML_AND_PDF_PARAGRAPHS {
            tooLarge := true;
            return;
          }
          gathered := gathered + "\n" + cleansed;
        }
      }
      b := b + 1;
    }
    assert page[|page|..] + rest == rest;
  }

  lemma SliceCons(page: seq<Block>, b: nat, rest: seq<Block>)
    requires b < |page|
    ensures page[b..] + rest != [] && (page[b..] + rest)[0] == page[b] && (page[b..] + rest)[1..] == page[b + 1..] + rest
  {
  }

  /** The text and analysis type `retrieve_content_from_url` returns. */
  datatype Retrieved = Retrieved(text: string, kind: Option<AnalysisType>)

  /**
   * `retrieve_content_from_url` after the download: `htmlText` is the text of
   * the useful part of an HTML page and `pages` the blocks of a PDF, both
   * produced by the parsers; any other mime type yields no text.
   */
  function RetrievedContent(contentType: string, htmlText: string, pages: seq<seq<Block>>, relevant: string -> bool): (r: Retrieved)
    ensures |r.text| <= Shared.TRUNCATE_TEXT_LENGTH_FOR_HTML_AND_PDF_PARAGRAPHS
    ensures r.kind == Some(HtmlAnalysis) <==> MimeType(contentType) in HTML_MIME_TYPES
    ensures r.kind == Some(PdfAnalysis) <==> MimeType(contentType) in PDF_MIME_TYPES
    ensures r.kind.None? ==> r.text == ""
  {
    var mime := MimeType(contentType);
    var found :=
      if mime in HTML_MIME_TYPES then Retrieved(htmlText, Some(HtmlAnalysis))
      else if mime in PDF_MIME_TYPES then Retrieved(PdfText(pages, relevant), Some(PdfAnalysis))
      else Retrieved("", None);
    Retrieved(Shared.Take(found.text, Shared.TRUNCATE_TEXT_LENGTH_FOR_HTML_AND_PDF_PARAGRAPHS), found.kind)
  }

  /** The final cut never shortens PDF text, and cuts HTML text to its first characters. */
  lemma RetrievedTruncation(contentType: string, htmlText: string, pages: seq<seq<Block>>, relevant: string -> bool)
    ensures MimeType(contentType) in PDF_MIME_TYPES ==>
      RetrievedContent(contentType, htmlText, pages, relevant).text == PdfText(pages, relevant)
    ensures MimeType(contentType) in HTML_MIME_TYPES ==>
      RetrievedContent(contentType, htmlText, pages, relevant).text ==
        htmlText[..if |htmlText| <= Shared.TRUNCATE_TEXT_LENGTH_FOR_HTML_AND_PDF_PARAGRAPHS then |htmlText| else Shared.TRUNCATE_TEXT_LENGTH_FOR_HTML_AND_PDF_PARAGRAPHS]
  {
    PdfTextWithinLimit(pages, relevant);
    assert "text/html" != "application/pdf";
  }

  /* ---- reading a timeline ---- */

  datatype Retweet = Retweet(fullText: Option<string>)

  datatype TimelineTweet = TimelineTweet(
    id: int,
    idStr: string,
    fullText: Option<string>,
    retweeted: Option<Retweet>,
    inReplyToStatusId: Option<int>,
    screenName: string)

  /** One call of `GetUserTimeline`: the tweets, or the Twitter error code. */
  datatype Fetch = Fetched(tweets: seq<TimelineTweet>) | TwitterError(code: int)

  /** The Twitter API: screen name, `since_id`, `count`, and which attempt this is. */
  type TimelineService = (string, Option<int>, nat, nat) -> Fetch

  /** How the retry loop ends: tweets, another error, or five rate-limit errors in a row. */
  datatype Attempts = Got(tweets: seq<TimelineTweet>) | Refused(code: int) | RateLimitedOut

  function Attempt(timeline: TimelineService, screenName: string, since: Option<int>, count: nat, k: nat): Fetch
  {
    timeline(screenName, since, count, k)
  }

  predicate RateLimited(f: Fetch)
  {
    f.TwitterError? && f.code == RATE_LIMIT_ERROR_CODE
  }

  /** The outcome of a call that is not a rate-limit error. */
  function Decided(f: Fetch): Attempts
  {
    match f
    case Fetched(tweets) => Got(tweets)
    case TwitterError(code) => Refused(code)
  }

  /** The retry loop from attempt `i` on. */
  function RetryFrom(timeline: TimelineService, screenName: string, since: Option<int>, count: nat, i: nat): Attempts
    decreases TIMELINE_ATTEMPTS - i
  {
    if i >= TIMELINE_ATTEMPTS then RateLimitedOut
    else
      var f := Attempt(timeline, screenName, since, count, i);
      if RateLimited(f) then RetryFrom(timeline, screenName, since, count, i + 1) else Decided(f)
  }

  function Retried(timeline: TimelineService, screenName: string, since: Option<int>, count: nat): Attempts
  {
    RetryFrom(timeline, screenName, since, count, 0)
  }

  /**
   * Only rate-limit errors are retried: the loop gives up after five of them,
   * and otherwise ends with the first call that is not one.
   */
  lemma {:induction false} RetryFromOutcome(timeline: TimelineService, screenName: string, since: Option<int>, count: nat, i: nat)
    requires i <= TIMELINE_ATTEMPTS
    ensures RetryFrom(timeline, screenName, since, count, i) == RateLimitedOut <==>
      forall k :: i <= k < TIMELINE_ATTEMPTS ==> RateLimited(Attempt(timeline, screenName, since, count, k))
    ensures RetryFrom(timeline, screenName, since, count, i) != RateLimitedOut ==>
      exists k :: i <= k < TIMELINE_ATTEMPTS && !RateLimited(Attempt(timeline, screenName, since, count, k)) &&
        RetryFrom(timeline, screenName, since, count, i) == Decided(Attempt(timeline, screenName, since, count, k)) &&
        forall j :: i <= j < k ==> RateLimited(Attempt(timeline, screenName, since, count, j))
    decreases TIMELINE_ATTEMPTS - i
  {
    if i < TIMELINE_ATTEMPTS && RateLimited(Attempt(timeline, screenName, since, count, i)) {
      RetryFromOutcome(timeline, screenName, since, count, i + 1);
    }
  }

  /** At most five calls are made: attempts from the sixth on cannot change the outcome. */
  lemma {:induction false} RetryFromUsesFiveAttempts(t1: TimelineService, t2: TimelineService, screenName: string, since: Option<int>, count: nat, i: nat)
    requires forall k :: 0 <= k < TIMELINE_ATTEMPTS ==> Attempt(t1, screenName, since, count, k) == Attempt(t2, screenName, since, count, k)
    ensures RetryFrom(t1, screenName, since, count, i) == RetryFrom(t2, screenName, since, count, i)
    decreases TIMELINE_ATTEMPTS - i
  {
    if i < TIMELINE_ATTEMPTS {
      assert Attempt(t1, screenName, since, count, i) == Attempt(t2, screenName, since, count, i);
      RetryFromUsesFiveAttempts(t1, t2, screenName, since, count, i + 1);
    }
  }

  /** The `for i in range(5)` loop of `process_twitter_reference`. */
  method FetchTimeline(timeline: TimelineService, screenName: string, since: Option<int>, count: nat) returns (r: Attempts)
    ensures r == Retried(timeline, screenName, since, count)
  {
    var i := 0;
    while i < TIMELINE_ATTEMPTS
      invariant 0 <= i <= TIMELINE_ATTEMPTS
      invariant RetryFrom(timeline, screenName, since, count, i) == Retried(timeline, screenName, since, count)
      decreases TIMELINE_ATTEMPTS - i
    {
      var f := timeline(screenName, since, count, i);
      assert f == Attempt(timeline, screenName, since, count, i);
      if !RateLimited(f) {
        return Decided(f);
      }
      i := i + 1;
    }
    return RateLimitedOut;
  }

  /* ---- collecting tweets ---- */

  /** `t.full_text`, or the retweeted tweet's when `t` is a retweet. */
  function TweetText(t: TimelineTweet): Option<string>
  {
    if t.retweeted.None? then t.fullText else t.retweeted.value.fullText
  }

  /** The tweets `process_tweets` saves: non-replies whose text is neither None nor empty. */
  predicate Saves(t: TimelineTweet)
  {
    t.inReplyToStatusId.None? && TweetText(t).Some? && TweetText(t).value != ""
  }

  /** `save_tweet_content`: the text, the reference origin, and the tweet's link. */
  function SavedTweetContent(db: Db, source: OriginId, t: TimelineTweet): Db
    requires Saves(t)
  {
    var c := Content(db.nextId, Tweet, TweetText(t).value, Some(Shared.BuildTweetUrl(t.idStr, t.screenName)), Some(source));
    db.(contents := db.contents + [c], nextId := db.nextId + 1)
  }

  /** The store after a step and the count it reports. */
  datatype Counted = Counted(db: Db, count: nat)

  /** `process_tweets(reference_origin, tweets)`: only contents are added. */
  function ProcessTweetsSpec(db: Db, source: OriginId, tweets: seq<TimelineTweet>): (r: Counted)
    ensures r.db == db.(contents := r.db.contents, nextId := r.db.nextId)
    ensures |db.contents| <= |r.db.contents| && r.db.contents[..|db.contents|] == db.contents
    ensures forall j :: |db.contents| <= j < |r.db.contents| ==>
      r.db.contents[j].contentType == Tweet && r.db.contents[j].origin == Some(source)
    decreases |tweets|
  {
    if tweets == [] then Counted(db, 0)
    else
      var t := tweets[0];
      var db1 := if Saves(t) then SavedTweetContent(db, source, t) else db;
      var r := ProcessTweetsSpec(db1, source, tweets[1..]);
      assert r.db.contents[..|db.contents|] == r.db.contents[..|db1.contents|][..|db.contents|];
      Counted(r.db, r.count + if t.inReplyToStatusId.None? then 1 else 0)
  }

  function NonReplies(tweets: seq<TimelineTweet>): (n: nat)
    ensures n <= |tweets|
  {
    if tweets == [] then 0 else (if tweets[0].inReplyToStatusId.None? then 1 else 0) + NonReplies(tweets[1..])
  }

  function SavedCount(tweets: seq<TimelineTweet>): (n: nat)
    ensures n <= |tweets|
  {
    if tweets == [] then 0 else (if Saves(tweets[0]) then 1 else 0) + SavedCount(tweets[1..])
  }

  /** The count is the number of non-replies, while one content is saved per non-empty one. */
  lemma {:induction false} ProcessTweetsCounts(db: Db, source: OriginId, tweets: seq<TimelineTweet>)
    ensures ProcessTweetsSpec(db, source, tweets).count == NonReplies(tweets)
    ensures |ProcessTweetsSpec(db, source, tweets).db.contents| == |db.contents| + SavedCount(tweets)
    ensures ProcessTweetsSpec(db, source, tweets).db.nextId == db.nextId + SavedCount(tweets)
    decreases |tweets|
  {
    if tweets != [] {
      var t := tweets[0];
      var db1 := if Saves(t) then SavedTweetContent(db, source, t) else db;
      ProcessTweetsCounts(db1, source, tweets[1..]);
    }
  }

  /** Empty tweets are counted without being saved: both numbers agree iff every non-reply has text. */
  lemma {:induction false} EmptyTweetsCounted(tweets: seq<TimelineTweet>)
    ensures SavedCount(tweets) <= NonReplies(tweets)
    ensures SavedCount(tweets) == NonReplies(tweets) <==>
      forall k :: 0 <= k < |tweets| && tweets[k].inReplyToStatusId.None? ==> Saves(tweets[k])
    decreases |tweets|
  {
    if tweets != [] {
      EmptyTweetsCounted(tweets[1..]);
      assert forall k :: 1 <= k < |tweets| ==> tweets[k] == tweets[1..][k - 1];
    }
  }

  method SaveTweetContent(s: Session, source: OriginId, t: TimelineTweet)
    requires Saves(t)
    modifies s
    ensures s.State() == SavedTweetContent(old(s.State()), source, t)
  {
    var url := Shared.BuildTweetUrl(t.idStr, t.screenName);
    s.contents := s.contents + [Content(s.nextId, Tweet, TweetText(t).value, Some(url), Some(source))];
    s.nextId := s.nextId + 1;
  }

  method ProcessTweets(s: Session, source: OriginId, tweets: seq<TimelineTweet>) returns (count: nat)
    modifies s
    ensures Counted(s.State(), count) == ProcessTweetsSpec(old(s.State()), source, tweets)
  {
    count := 0;
    for i := 0 to |tweets|
      invariant var r := ProcessTweetsSpec(s.State(), source, tweets[i..]);
        Counted(r.db, count + r.count) == ProcessTweetsSpec(old(s.State()), source, tweets)
    {
      assert tweets[i..][0] == tweets[i] && tweets[i..][1..] == tweets[i + 1..];
      var t := tweets[i];
      if t.inReplyToStatusId.None? {
        if Saves(t) {
          SaveTweetContent(s, source, t);
        }
        count := count + 1;
      }
    }
    assert tweets[|tweets|..] == [];
  }

  /* ---- the timeline cursor ---- */

  /** The `max_id` loop: the highest tweet id, starting from -1. */
  function MaxTimelineId(tweets: seq<TimelineTweet>): (m: int)
    ensures m >= -1
    ensures forall k :: 0 <= k < |tweets| ==> tweets[k].id <= m
    ensures m == -1 || exists k :: 0 <= k < |tweets| && tweets[k].id == m
  {
    if tweets == [] then -1
    else
      var init := tweets[..|tweets| - 1];
      var m0 := MaxTimelineId(init);
      var last := tweets[|tweets| - 1];
      assert forall k :: 0 <= k < |init| ==> init[k] == tweets[k];
      if last.id > m0 then last.id else m0
  }

  method HighestId(tweets: seq<TimelineTweet>) returns (maxId: int)
    ensures maxId == MaxTimelineId(tweets)
  {
    maxId := -1;
    for i := 0 to |tweets|
      invariant maxId == MaxTimelineId(tweets[..i])
    {
      assert tweets[..i + 1][..i] == tweets[..i];
      if tweets[i].id > maxId {
        maxId := tweets[i].id;
      }
    }
    assert tweets[..|tweets|] == tweets;
  }

  /* ---- one origin ---- */

  /** The store after processing an origin, the count reported, and whether an exception escaped. */
  datatype Step = Step(db: Db, count: nat, raised: bool)

  /** Processing never changes the kind of an origin, nor how many there are. */
  predicate KindsKept(a: seq<Origin>, b: seq<Origin>)
  {
    |a| == |b| &&
    forall j :: 0 <= j < |a| ==>
      a[j].detail.TwitterOrigin? == b[j].detail.TwitterOrigin? && a[j].detail.RssOrigin? == b[j].detail.RssOrigin?
  }

  /**
   * `process_twitter_reference(origin)` for the Twitter origin at position `i`.
   * Five rate-limit errors in a row leave `tweets` unbound, so reading it
   * raises; any other Twitter error marks the origin and reports 0.
   */
  function ProcessTwitterReferenceSpec(db: Db, cfg: Config, timeline: TimelineService, i: nat): (r: Step)
    requires i < |db.origins| && db.origins[i].detail.TwitterOrigin?
    ensures KindsKept(db.origins, r.db.origins)
  {
    var o := db.origins[i];
    match Retried(timeline, o.detail.screenName, o.lastSyncedId, cfg.maxTweets)
    case Refused(_) => Step(db.(origins := db.origins[i := o.(validExtraction := false)]), 0, false)
    case RateLimitedOut => Step(db, 0, true)
    case Got(tweets) =>
      var r := ProcessTweetsSpec(db, o.id, tweets);
      var m := MaxTimelineId(tweets);
      Step(if m > 0 then r.db.(origins := r.db.origins[i := o.(lastSyncedId := Some(m))]) else r.db, r.count, false)
  }

  /** Another Twitter error only marks the origin: no content, no cursor move, count 0. */
  lemma TwitterErrorMarksOrigin(db: Db, cfg: Config, timeline: TimelineService, i: nat)
    requires i < |db.origins| && db.origins[i].detail.TwitterOrigin?
    requires Retried(timeline, db.origins[i].detail.screenName, db.origins[i].lastSyncedId, cfg.maxTweets).Refused?
    ensures var r := ProcessTwitterReferenceSpec(db, cfg, timeline, i);
      && !r.raised && r.count == 0 && r.db == db.(origins := r.db.origins)
      && !r.db.origins[i].validExtraction && r.db.origins[i].lastSyncedId == db.origins[i].lastSyncedId
      && forall j :: 0 <= j < |db.origins| && j != i ==> r.db.origins[j] == db.origins[j]
  {
  }

  /** Five rate-limit errors raise before anything is written. */
  lemma RateLimitedOutRaises(db: Db, cfg: Config, timeline: TimelineService, i: nat)
    requires i < |db.origins| && db.origins[i].detail.TwitterOrigin?
    requires forall k :: 0 <= k < TIMELINE_ATTEMPTS ==>
      RateLimited(Attempt(timeline, db.origins[i].detail.screenName, db.origins[i].lastSyncedId, cfg.maxTweets, k))
    ensures ProcessTwitterReferenceSpec(db, cfg, timeline, i) == Step(db, 0, true)
  {
    RetryFromOutcome(timeline, db.origins[i].detail.screenName, db.origins[i].lastSyncedId, cfg.maxTweets, 0);
  }

  /**
   * After a successful read the count is the number of non-replies, and the
   * cursor becomes the highest tweet id when that is positive.
   */
  lemma TwitterCursorAndCount(db: Db, cfg: Config, timeline: TimelineService, i: nat, tweets: seq<TimelineTweet>)
    requires i < |db.origins| && db.origins[i].detail.TwitterOrigin?
    requires Retried(timeline, db.origins[i].detail.screenName, db.origins[i].lastSyncedId, cfg.maxTweets) == Got(tweets)
    ensures var r := ProcessTwitterReferenceSpec(db, cfg, timeline, i);
      && !r.raised && r.count == NonReplies(tweets)
      && |r.db.contents| == |db.contents| + SavedCount(tweets)
      && r.db.origins[i].lastSyncedId ==
           (if MaxTimelineId(tweets) > 0 then Some(MaxTimelineId(tweets)) else db.origins[i].lastSyncedId)
      && r.db.origins[i].validExtraction == db.origins[i].validExtraction
  {
    ProcessTweetsCounts(db, db.origins[i].id, tweets);
  }

  method ProcessTwitterReference(s: Session, cfg: Config, timeline: TimelineService, i: nat) returns (count: nat, raised: bool)
    requires i < |s.origins| && s.origins[i].detail.TwitterOrigin?
    modifies s
    ensures Step(s.State(), count, raised) == ProcessTwitterReferenceSpec(old(s.State()), cfg, timeline, i)
  {
    var o := s.origins[i];
    var outcome := FetchTimeline(timeline, o.detail.screenName, o.lastSyncedId, cfg.maxTweets);
    match outcome
    case Refused(_) =>
      s.origins := s.origins[i := o.(validExtraction := false)];
      return 0, false;
    case RateLimitedOut =>
      return 0, true;
    case Got(tweets) =>
      count := ProcessTweets(s, o.id, tweets);
      var maxId := HighestId(tweets);
      if maxId > 0 {
        s.origins := s.origins[i := o.(lastSyncedId := Some(maxId))];
      }
      raised := false;
  }

  /* ---- feeds ---- */

  datatype RssItem = RssItem(text: string, link: string)

  /** `extract_rss_content(rss, since)`: the feed's timestamp, if any, and its items. */
  datatype FeedRead = FeedRead(maxTs: Option<int>, items: seq<RssItem>)

  type FeedReader = (Option<string>, Option<int>) -> FeedRead

  /** The contents saved for the items of a feed, with ids from `first` on. */
  function RssContents(first: nat, origin: OriginId, items: seq<RssItem>): (cs: seq<Content>)
    ensures |cs| == |items|
    ensures forall k :: 0 <= k < |items| ==>
      cs[k] == Content(first + k, Rss, items[k].text, Some(items[k].link), Some(origin))
  {
    seq(|items|, k requires 0 <= k < |items| => Content(first + k, Rss, items[k].text, Some(items[k].link), Some(origin)))
  }

  /**
   * `process_rss_reference(origin)` for the RSS origin at position `i`: the
   * link is first made absolute against the origin's base URL (a missing base
   * URL with a link present raises), every item becomes a content, and a feed
   * timestamp becomes the cursor.
   */
  function ProcessRssReferenceSpec(db: Db, feed: FeedReader, i: nat): (r: Step)
    requires i < |db.origins| && db.origins[i].detail.RssOrigin?
    ensures KindsKept(db.origins, r.db.origins)
  {
    var o := db.origins[i];
    var d := o.detail;
    if d.rss.Some? && d.rssBaseUrl.None? then Step(db, 0, true)
    else
      var rss := Shared.CleanRssPath(d.rss, d.rssBaseUrl.GetOr(""));
      var read := feed(rss, o.lastSyncedId);
      var o1 := o.(detail := d.(rss := rss), lastSyncedId := if read.maxTs.Some? then read.maxTs else o.lastSyncedId);
      Step(db.(origins := db.origins[i := o1],
               contents := db.contents + RssContents(db.nextId, o.id, read.items),
               nextId := db.nextId + |read.items|),
           |read.items|, false)
  }

  /** The count of a feed is its number of items, each saved in order as an RSS content of the origin. */
  lemma RssItemsSaved(db: Db, feed: FeedReader, i: nat)
    requires i < |db.origins| && db.origins[i].detail.RssOrigin?
    requires db.origins[i].detail.rssBaseUrl.Some?
    ensures var o := db.origins[i];
      var rss := Shared.CleanRssPath(o.detail.rss, o.detail.rssBaseUrl.value);
      var read := feed(rss, o.lastSyncedId);
      var r := ProcessRssReferenceSpec(db, feed, i);
      && !r.raised && r.count == |read.items|
      && |r.db.contents| == |db.contents| + r.count && r.db.contents[..|db.contents|] == db.contents
      && (forall k :: 0 <= k < r.count ==>
            r.db.contents[|db.contents| + k].contentType == Rss &&
            r.db.contents[|db.contents| + k].value == read.items[k].text &&
            r.db.contents[|db.contents| + k].link == Some(read.items[k].link) &&
            r.db.contents[|db.contents| + k].origin == Some(o.id))
      && r.db.origins[i].detail.rss == rss
      && r.db.origins[i].lastSyncedId == (if read.maxTs.Some? then read.maxTs else o.lastSyncedId)
  {
  }

  method ProcessRssReference(s: Session, feed: FeedReader, i: nat) returns (count: nat, raised: bool)
    requires i < |s.origins| && s.origins[i].detail.RssOrigin?
    modifies s
    ensures Step(s.State(), count, raised) == ProcessRssReferenceSpec(old(s.State()), feed, i)
  {
    var o := s.origins[i];
    var d := o.detail;
    if d.rss.Some? && d.rssBaseUrl.None? {
      return 0, true;
    }
    var rss := Shared.CleanRssPath(d.rss, d.rssBaseUrl.GetOr(""));
    s.origins := s.origins[i := o.(detail := d.(rss := rss))];
    var read := feed(rss, o.lastSyncedId);
    count := SaveRssItems(s, o.id, read.items);
    if read.maxTs.Some? {
      s.origins := s.origins[i := s.origins[i].(lastSyncedId := read.maxTs)];
    }
    raised := false;
  }

  /** The item loop of `process_rss_reference`: one RSS content per item, in order, with fresh ids. */
  method SaveRssItems(s: Session, origin: OriginId, items: seq<RssItem>) returns (count: nat)
    modifies s
    ensures count == |items|
    ensures s.State() == old(s.State()).(contents := old(s.contents) + RssContents(old(s.nextId), origin, items),
                                         nextId := old(s.nextId) + |items|)
  {
    ghost var contents0, first := s.contents, s.nextId;
    count := 0;
    for k := 0 to |items|
      invariant count == k && s.nextId == first + k
      invariant s.contents == contents0 + RssContents(first, origin, items[..k])
      invariant s.State() == old(s.State()).(contents := s.contents, nextId := s.nextId)
    {
      var item := items[k];
      RssContentsSnoc(first, origin, items, k);
      s.contents := s.contents + [Content(s.nextId, Rss, item.text, Some(item.link), Some(origin))];
      s.nextId := s.nextId + 1;
      count := count + 1;
    }
    assert items[..|items|] == items;
  }

  lemma RssContentsSnoc(first: nat, origin: OriginId, items: seq<RssItem>, k: nat)
    requires k < |items|
    ensures RssContents(first, origin, items[..k + 1])
      == RssContents(first, origin, items[..k]) + [Content(first + k, Rss, items[k].text, Some(items[k].link), Some(origin))]
  {
  }

  /* ---- one entity ---- */

  /** The Twitter API and the feed reader. */
  datatype Readers = Readers(timeline: TimelineService, feed: FeedReader)

  /** `entity.origins`: the positions of the origins of `id`, in order. */
  function OwnedPositions(os: seq<Origin>, id: EntityId): (ps: seq<nat>)
    ensures forall p: nat :: p in ps <==> p < |os| && os[p].entity == Some(id)
    ensures forall k :: 0 <= k < |ps| ==> ps[k] < |os|
    ensures forall a, b :: 0 <= a < b < |ps| ==> ps[a] < ps[b]
  {
    if os == [] then []
    else
      var n := |os| - 1;
      var init := OwnedPositions(os[..n], id);
      assert forall p :: 0 <= p < n ==> os[..n][p] == os[p];
      init + (if os[n].entity == Some(id) then [n] else [])
  }

  /**
   * The origins `process_entity` reads: Twitter origins of an entity that is
   * not a reference, and every RSS origin; Web origins are discarded.
   */
  predicate Processes(e: Entity, o: Origin)
  {
    (o.detail.TwitterOrigin? && !e.isReference) || o.detail.RssOrigin?
  }

  function OriginStep(db: Db, cfg: Config, sv: Readers, e: Entity, p: nat): (r: Step)
    requires p < |db.origins| && Processes(e, db.origins[p])
    ensures KindsKept(db.origins, r.db.origins)
  {
    if db.origins[p].detail.TwitterOrigin? then ProcessTwitterReferenceSpec(db, cfg, sv.timeline, p)
    else ProcessRssReferenceSpec(db, sv.feed, p)
  }

  /**
   * The loop of `process_entity` over the positions `ps`, `count` being the
   * value so far: each processed origin overwrites it, and an exception ends
   * the loop.
   */
  function ProcessOriginsSpec(db: Db, cfg: Config, sv: Readers, e: Entity, ps: seq<nat>, count: nat): (r: Step)
    requires forall k :: 0 <= k < |ps| ==> ps[k] < |db.origins|
    ensures KindsKept(db.origins, r.db.origins)
    decreases |ps|
  {
    if ps == [] then Step(db, count, false)
    else if !Processes(e, db.origins[ps[0]]) then ProcessOriginsSpec(db, cfg, sv, e, ps[1..], count)
    else
      var r := OriginStep(db, cfg, sv, e, ps[0]);
      if r.raised then r else ProcessOriginsSpec(r.db, cfg, sv, e, ps[1..], r.count)
  }

  /** `process_entity(entity)`. */
  function ProcessEntitySpec(db: Db, cfg: Config, sv: Readers, e: Entity): Step
  {
    ProcessOriginsSpec(db, cfg, sv, e, OwnedPositions(db.origins, e.id), 0)
  }

  /** One more position at the end of the loop runs on what the loop left. */
  lemma {:induction false} ProcessOriginsSnoc(db: Db, cfg: Config, sv: Readers, e: Entity, ps: seq<nat>, p: nat, count: nat)
    requires forall k :: 0 <= k < |ps| ==> ps[k] < |db.origins|
    requires p < |db.origins|
    ensures var m := ProcessOriginsSpec(db, cfg, sv, e, ps, count);
      ProcessOriginsSpec(db, cfg, sv, e, ps + [p], count) ==
        if m.raised then m else ProcessOriginsSpec(m.db, cfg, sv, e, [p], m.count)
    decreases |ps|
  {
    if ps == [] {
      assert ps + [p] == [p];
    } else {
      assert (ps + [p])[0] == ps[0] && (ps + [p])[1..] == ps[1..] + [p];
      if !Processes(e, db.origins[ps[0]]) {
        ProcessOriginsSnoc(db, cfg, sv, e, ps[1..], p, count);
      } else {
        var r := OriginStep(db, cfg, sv, e, ps[0]);
        if !r.raised {
          ProcessOriginsSnoc(r.db, cfg, sv, e, ps[1..], p, r.count);
        }
      }
    }
  }

  /**
   * The count is not a sum: after a processed origin that does not raise, the
   * result is exactly that origin's own step, whatever came before.
   */
  lemma ProcessOriginsLastCounts(db: Db, cfg: Config, sv: Readers, e: Entity, ps: seq<nat>, p: nat, count: nat)
    requires forall k :: 0 <= k < |ps| ==> ps[k] < |db.origins|
    requires p < |db.origins| && Processes(e, db.origins[p])
    ensures var m := ProcessOriginsSpec(db, cfg, sv, e, ps, count);
      !m.raised ==> ProcessOriginsSpec(db, cfg, sv, e, ps + [p], count) == OriginStep(m.db, cfg, sv, e, p)
  {
    ProcessOriginsSnoc(db, cfg, sv, e, ps, p, count);
  }

  /** An origin that is not processed (a Web origin, or a reference entity's Twitter origin) changes nothing. */
  lemma ProcessOriginsSkips(db: Db, cfg: Config, sv: Readers, e: Entity, ps: seq<nat>, p: nat, count: nat)
    requires forall k :: 0 <= k < |ps| ==> ps[k] < |db.origins|
    requires p < |db.origins| && !Processes(e, db.origins[p])
    ensures ProcessOriginsSpec(db, cfg, sv, e, ps + [p], count) == ProcessOriginsSpec(db, cfg, sv, e, ps, count)
  {
    ProcessOriginsSnoc(db, cfg, sv, e, ps, p, count);
  }

  /** The timelines of a reference entity are never read: its result does not depend on the Twitter API. */
  lemma {:induction false} ReferenceIgnoresTimelines(db: Db, cfg: Config, sv1: Readers, sv2: Readers, e: Entity, ps: seq<nat>, count: nat)
    requires e.isReference && sv1.feed == sv2.feed
    requires forall k :: 0 <= k < |ps| ==> ps[k] < |db.origins|
    ensures ProcessOriginsSpec(db, cfg, sv1, e, ps, count) == ProcessOriginsSpec(db, cfg, sv2, e, ps, count)
    decreases |ps|
  {
    if ps != [] {
      if !Processes(e, db.origins[ps[0]]) {
        ReferenceIgnoresTimelines(db, cfg, sv1, sv2, e, ps[1..], count);
      } else {
        var r := OriginStep(db, cfg, sv1, e, ps[0]);
        assert r == OriginStep(db, cfg, sv2, e, ps[0]);
        if !r.raised {
          ReferenceIgnoresTimelines(r.db, cfg, sv1, sv2, e, ps[1..], r.count);
        }
      }
    }
  }

  /** One turn of the loop of `process_entity`, from position `i` of the origin list. */
  lemma ProcessOriginsStepAt(db: Db, cfg: Config, sv: Readers, e: Entity, ps: seq<nat>, i: nat, count: nat)
    requires i < |ps| && forall k :: i <= k < |ps| ==> ps[k] < |db.origins|
    ensures InRange(ps[i..], |db.origins|) && InRange(ps[i + 1..], |db.origins|)
    ensures !Processes(e, db.origins[ps[i]]) ==>
      ProcessOriginsSpec(db, cfg, sv, e, ps[i..], count) == ProcessOriginsSpec(db, cfg, sv, e, ps[i + 1..], count)
    ensures Processes(e, db.origins[ps[i]]) ==>
      var r := OriginStep(db, cfg, sv, e, ps[i]);
      && (r.raised ==> ProcessOriginsSpec(db, cfg, sv, e, ps[i..], count) == r)
      && (!r.raised ==>
            && |r.db.origins| == |db.origins|
            && ProcessOriginsSpec(db, cfg, sv, e, ps[i..], count) == ProcessOriginsSpec(r.db, cfg, sv, e, ps[i + 1..], r.count))
  {
    var here, tail := ps[i..], ps[i + 1..];
    assert here[0] == ps[i] && here[1..] == tail;
    forall k | 0 <= k < |here| ensures here[k] < |db.origins| {
      assert here[k] == ps[i + k];
    }
    forall k | 0 <= k < |tail| ensures tail[k] < |db.origins| {
      assert tail[k] == ps[i + 1 + k];
    }
  }

  /** Every position of `ps` is below `n`. */
  predicate InRange(ps: seq<nat>, n: nat)
  {
    forall k :: 0 <= k < |ps| ==> ps[k] < n
  }

  /** The body of the loop of `process_entity` for the origin at position `p`. */
  method ProcessOrigin(s: Session, cfg: Config, sv: Readers, e: Entity, p: nat, count: nat) returns (count': nat, raised: bool)
    requires p < |s.origins|
    modifies s
    ensures Processes(e, old(s.origins[p])) ==> Step(s.State(), count', raised) == OriginStep(old(s.State()), cfg, sv, e, p)
    ensures !Processes(e, old(s.origins[p])) ==> s.State() == old(s.State()) && count' == count && !raised
  {
    var detail := s.origins[p].detail;
    count', raised := count, false;
    if detail.TwitterOrigin? && !e.isReference {
      count', raised := ProcessTwitterReference(s, cfg, sv.timeline, p);
    } else if detail.RssOrigin? {
      count', raised := ProcessRssReference(s, sv.feed, p);
    }
  }

  method ProcessEntity(s: Session, cfg: Config, sv: Readers, e: Entity) returns (count: nat, raised: bool)
    modifies s
    ensures Step(s.State(), count, raised) == ProcessEntitySpec(old(s.State()), cfg, sv, e)
  {
    var ps := OwnedPositions(s.origins, e.id);
    count, raised := 0, false;
    var i := 0;
    while i < |ps|
      invariant 0 <= i <= |ps|
      invariant forall k :: i <= k < |ps| ==> ps[k] < |s.origins|
      invariant ProcessOriginsSpec(s.State(), cfg, sv, e, ps[i..], count) == ProcessEntitySpec(old(s.State()), cfg, sv, e)
      decreases |ps| - i
    {
      ProcessOriginsStepAt(s.State(), cfg, sv, e, ps, i, count);
      count, raised := ProcessOrigin(s, cfg, sv, e, ps[i], count);
      if raised {
        return;
      }
      i := i + 1;
    }
    assert ps[i..] == [];
  }

  /* ---- one analysis per company ---- */

  datatype AnalysisStatus = FailedAtTranslation | NoCompanies | OtherException | Completed | NoContent

  datatype ExpertManaStatus = OUI_MANA | NON_MANA | A_REVOIR

  /** The columns `create_analysis_for_companies` copies into every extra analysis. */
  datatype AnalysisBody = AnalysisBody(
    content: Option<ContentId>,
    analysisTs: Option<int>,
    originalText: Option<string>,
    translatedText: Option<string>,
    originalLanguage: Option<string>,
    flag: Option<int>,
    manaAssistantScore: Option<real>,
    location: Option<string>,
    nluCompanyConfidence: Option<real>,
    weightedScoreCompany: Option<real>,
    score: Option<real>,
    count: Option<int>,
    text: Option<string>,
    scoreKeywordsConfirmed: Option<int>,
    link: Option<string>,
    status: Option<AnalysisStatus>,
    analysisType: Option<AnalysisType>,
    statusException: Option<string>)

  /** The `company_match` JSON of an analysis. */
  datatype CompanyMatchJson = CompanyMatchJson(reason: string, synonyms: seq<string>, matchDetails: seq<Shared.NearMatch>)

  /** An analysis row; `id` and `expertMana` are None until the row is stored. */
  datatype Analysis = Analysis(
    id: Option<nat>,
    body: AnalysisBody,
    company: Option<string>,
    companyMatch: Option<CompanyMatchJson>,
    expertMana: Option<ExpertManaStatus>)

  function FuzzyMatch(c: CompanyMatch): CompanyMatchJson
  {
    CompanyMatchJson("fuzzy", c.synonyms, c.matchDetails)
  }

  /**
   * `create_analysis_for_companies(analysis, companies)`: one analysis per
   * company, the first being the given one and the others fresh copies of its
   * columns; without companies, the given analysis alone.
   */
  method CreateAnalysisForCompanies(analysis: Analysis, companies: seq<CompanyMatch>) returns (analyses: seq<Analysis>)
    ensures |analyses| == if |companies| == 0 then 1 else |companies|
    ensures |companies| == 0 ==> analyses == [analysis]
    ensures |companies| > 0 ==>
      analyses[0] == analysis.(company := Some(companies[0].company), companyMatch := Some(FuzzyMatch(companies[0])))
    ensures forall i :: 0 <= i < |companies| ==>
      && analyses[i].body == analysis.body
      && analyses[i].company == Some(companies[i].company)
      && analyses[i].companyMatch == Some(CompanyMatchJson("fuzzy", companies[i].synonyms, companies[i].matchDetails))
    ensures forall i :: 0 < i < |companies| ==> analyses[i].id.None? && analyses[i].expertMana.None?
  {
    if |companies| == 0 {
      return [analysis];
    }
    analyses := [];
    var current := analysis;
    for i := 0 to |companies|
      invariant |analyses| == i
      invariant current.body == analysis.body
      invariant i == 0 ==> current == analysis
      invariant i > 0 ==>
        analyses[0] == analysis.(company := Some(companies[0].company), companyMatch := Some(FuzzyMatch(companies[0])))
      invariant forall k :: 0 <= k < i ==>
        && analyses[k].body == analysis.body
        && analyses[k].company == Some(companies[k].company)
        && analyses[k].companyMatch == Some(FuzzyMatch(companies[k]))
      invariant forall k :: 0 < k < i ==> analyses[k].id.None? && analyses[k].expertMana.None?
    {
      if i > 0 {
        current := Analysis(None, current.body, None, None, None);
      }
      current := current.(company := Some(companies[i].company), companyMatch := Some(FuzzyMatch(companies[i])));
      analyses := analyses + [current];
    }
  }
}
