/**
 * The content container of components/ContentContainer.tsx: one generation run
 * per mount (and per change of its `contentBasis` or `language` props), driving
 * the three-state machine `loading | ready | error` that selects what is shown.
 *
 * The single `await` of a run splits it into two atomic steps: `Start`, which
 * resets the state and issues the request, and `Resolve`, which commits what
 * the request (and the parse of its response) settled with.
 */
module ContentContainer {
  import opened JsString
  import opened Parse

  // ---------------------------------------------------------------------------
  // The generation request
  // ---------------------------------------------------------------------------

  /** The model every analysis request names. */
  const ModelName: string := "gemini-2.5-pro"

  /**
   * The prompt template is fixed text with one interpolation, the report
   * language. Its wording stands here as two placeholder constants.
   */
  const PromptHead: string := "<fixed analysis instructions; the report language is> "
  const PromptTail: string := ".\n"

  /** `getAnalysisFromVideoPrompt(language)`: the template with the language filled in. */
  function AnalysisPrompt(language: string): (prompt: string)
    ensures |prompt| == |PromptHead| + |language| + |PromptTail|
    ensures prompt[..|PromptHead|] == PromptHead
    ensures prompt[|PromptHead|..|PromptHead| + |language|] == language
    ensures prompt[|PromptHead| + |language|..] == PromptTail
  {
    PromptHead + language + PromptTail
  }

  /** The arguments of one `generateText` call. */
  datatype Request = Request(modelName: string, prompt: string, videoUrl: string, isJson: bool)

  /** The request `generateAnalysisFromVideo(videoUrl, language)` sends. */
  function AnalysisRequest(videoUrl: string, language: string): (r: Request)
    ensures r.modelName == "gemini-2.5-pro" && r.isJson
    ensures r.videoUrl == videoUrl && r.prompt == AnalysisPrompt(language)
  {
    Request(ModelName, AnalysisPrompt(language), videoUrl, true)
  }

  /** Distinct video URLs or languages never produce the same request. */
  lemma RequestDeterminesInputs(u1: string, l1: string, u2: string, l2: string)
    requires AnalysisRequest(u1, l1) == AnalysisRequest(u2, l2)
    ensures u1 == u2 && l1 == l2
  {
    var p1, p2 := AnalysisPrompt(l1), AnalysisPrompt(l2);
    assert |l1| == |l2|;
    assert l1 == p1[|PromptHead|..|PromptHead| + |l1|];
  }

  // ---------------------------------------------------------------------------
  // What a run settles with
  // ---------------------------------------------------------------------------

  /** A thrown JavaScript value: an `Error` instance with its message, or anything else. */
  datatype Thrown = ErrorInstance(message: string) | OtherValue

  /** How an awaited call settles: it returns a value or it throws. */
  datatype Outcome<+T> = Returned(value: T) | Threw(thrown: Thrown)

  /**
   * Reading the property `analysis` of a parsed JSON value: a string, `undefined`
   * when the property is absent, or a thrown TypeError when the value is `null`.
   */
  datatype FieldRead = Value(text: string) | Undefined | ReadThrows(message: string)

  /** The two JSON operations the container relies on, left abstract. */
  datatype JsonOracle<!J> = JsonOracle(parse: string -> JsonParse<J>, analysisField: J -> FieldRead)

  /** The `analysis` state: the extracted text, or `undefined` when the field was absent. */
  datatype AnalysisValue = Text(text: string) | Missing

  /**
   * `generateAnalysisFromVideo` after its `await`: how it settles, given how the
   * `generateText` call settled.
   */
  function GenerateAnalysis<J>(response: Outcome<string>, json: JsonOracle<J>): (r: Outcome<AnalysisValue>)
    ensures r.Returned? <==>
      response.Returned? && json.parse(Slice(response.value)).Parsed? &&
      !json.analysisField(json.parse(Slice(response.value)).value).ReadThrows?
    ensures r.Returned? ==>
      var field := json.analysisField(json.parse(Slice(response.value)).value);
      r.value == if field.Value? then Text(field.text) else Missing
  {
    match response
    case Threw(t) => Threw(t)
    case Returned(text) =>
      match ParseJson(text, json.parse)
      case SyntaxError(m) => Threw(ErrorInstance(m))
      case Parsed(v) =>
        match json.analysisField(v)
        case Value(a) => Returned(Text(a))
        case Undefined => Returned(Missing)
        case ReadThrows(m) => Threw(ErrorInstance(m))
  }

  /**
   * A run fails exactly when the call throws, the slice does not parse, or the
   * field read throws; parse and read failures keep their `Error` messages.
   */
  lemma GenerateAnalysisFailures<J>(response: Outcome<string>, json: JsonOracle<J>)
    ensures response.Threw? ==> GenerateAnalysis(response, json) == Threw(response.thrown)
    ensures response.Returned? && json.parse(Slice(response.value)).SyntaxError? ==>
      GenerateAnalysis(response, json) == Threw(ErrorInstance(json.parse(Slice(response.value)).message))
    ensures (response.Returned? && json.parse(Slice(response.value)).Parsed? &&
             json.analysisField(json.parse(Slice(response.value)).value).ReadThrows?) ==>
      GenerateAnalysis(response, json) ==
        Threw(ErrorInstance(json.analysisField(json.parse(Slice(response.value)).value).message))
    ensures GenerateAnalysis(response, json).Threw? <==>
      response.Threw? ||
      json.parse(Slice(response.value)).SyntaxError? ||
      json.analysisField(json.parse(Slice(response.value)).value).ReadThrows?
  {
  }

  /**
   * An `analysis` envelope wrapped in conversational noise yields the envelope's
   * `analysis` text.
   */
  lemma GenerateAnalysisOfEnvelope<J>(prefix: string, body: string, suffix: string,
                                      json: JsonOracle<J>, v: J, text: string)
    requires body != [] && body[0] == '{' && body[|body| - 1] == '}'
    requires '{' !in prefix && '}' !in suffix
    requires json.parse(body) == Parsed(v) && json.analysisField(v) == Value(text)
    ensures GenerateAnalysis(Returned(prefix + body + suffix), json) == Returned(Text(text))
  {
    ParseOfEnvelope(prefix, body, suffix, json.parse);
  }

  /** Two responses with the same slice settle the same way. */
  lemma GenerateAnalysisSeesOnlySlice<J>(a: string, b: string, json: JsonOracle<J>)
    requires Slice(a) == Slice(b)
    ensures GenerateAnalysis(Returned(a), json) == GenerateAnalysis(Returned(b), json)
  {
  }

  /** The stored error message: an `Error`'s own message, otherwise a generic one. */
  function ErrorMessage(t: Thrown): (message: string)
    ensures t.ErrorInstance? ==> message == t.message
    ensures t.OtherValue? ==> message == "An unknown error occurred"
  {
    match t
    case ErrorInstance(m) => m
    case OtherValue => "An unknown error occurred"
  }

  // ---------------------------------------------------------------------------
  // What is shown
  // ---------------------------------------------------------------------------

  datatype LoadingState = Loading | Ready | Error

  /** The three views `renderContent` chooses between. */
  datatype View = Spinner | ErrorView(message: string, urlNote: bool) | AnalysisView(text: string)

  /** The error paragraph: the stored error, or a fallback when it is null or empty. */
  function ErrorText(error: Option<string>): (text: string)
    ensures text != ""
    ensures error.Some? && error.value != "" ==> text == error.value
    ensures error.None? || error.value == "" ==> text == "Something went wrong"
  {
    OrElse(error, "Something went wrong")
  }

  /**
   * Whether the error view adds the note that a URL must begin with a scheme:
   * text shorter than `http://` always gets it, and only text beginning with
   * `http` can go without it.
   */
  function NeedsUrlNote(basis: string): (note: bool)
    ensures |basis| < 7 ==> note
    ensures !note ==> |basis| >= 7 && basis[..4] == "http"
  {
    !StartsWith(basis, "http://") && !StartsWith(basis, "https://")
  }

  /** The note is left out for every `http://` and `https://` URL, and only for those. */
  lemma UrlNoteExactlyWithoutScheme(basis: string)
    ensures !NeedsUrlNote(basis) <==>
      exists rest :: basis == "http://" + rest || basis == "https://" + rest
  {
    if StartsWith(basis, "http://") {
      assert basis == "http://" + basis[7..];
    } else if StartsWith(basis, "https://") {
      assert basis == "https://" + basis[8..];
    }
  }

  /** `renderContent`: each loading state selects exactly one view. */
  function RenderContent(state: LoadingState, error: Option<string>, analysis: AnalysisValue,
                         basis: string): (v: View)
    ensures v.Spinner? <==> state == Loading
    ensures v.ErrorView? <==> state == Error
    ensures v.AnalysisView? <==> state == Ready
    ensures v.ErrorView? ==> v.message == ErrorText(error) && v.urlNote == NeedsUrlNote(basis)
    ensures v.AnalysisView? ==> v.text == (if analysis.Text? then analysis.text else "")
  {
    match state
    case Loading => Spinner
    case Error => ErrorView(ErrorText(error), NeedsUrlNote(basis))
    case Ready => AnalysisView(if analysis.Text? then analysis.text else "")
  }

  // ---------------------------------------------------------------------------
  // The component
  // ---------------------------------------------------------------------------

  class Container {
    var contentBasis: string
    var language: string
    var analysis: AnalysisValue
    var loadingState: LoadingState
    var error: Option<string>

    /** While a run is loading nothing is stored; a shown error always has a message. */
    ghost predicate Valid()
      reads this
    {
      (loadingState == Loading ==> error == None && analysis == Text("")) &&
      (loadingState == Error ==> error.Some?)
    }

    /** Mounting: the initial `useState` values. */
    constructor (contentBasis: string, language: string)
      ensures Valid()
      ensures this.contentBasis == contentBasis && this.language == language
      ensures loadingState == Loading && error == None && analysis == Text("")
    {
      this.contentBasis := contentBasis;
      this.language := language;
      analysis := Text("");
      loadingState := Loading;
      error := None;
    }

    /** The busy signal the loading effect reports to the parent: set exactly while the spinner shows. */
    function Busy(): (busy: bool)
      reads this
      ensures busy <==> View() == Spinner
    {
      loadingState == Loading
    }

    /** What the container shows. */
    function View(): View
      reads this
    {
      RenderContent(loadingState, error, analysis, contentBasis)
    }

    /** `generateContent` up to its `await`: reset the state and issue the request. */
    method Start() returns (request: Request)
      modifies this`loadingState, this`error, this`analysis
      ensures Valid() && Busy() && View() == Spinner
      ensures loadingState == Loading && error == None && analysis == Text("")
      ensures request == AnalysisRequest(contentBasis, language)
    {
      loadingState := Loading;
      error := None;
      analysis := Text("");
      request := AnalysisRequest(contentBasis, language);
    }

    /** `generateContent` after its `await`: commit the analysis, or the error. */
    method Resolve(result: Outcome<AnalysisValue>)
      requires Valid()
      modifies this`loadingState, this`error, this`analysis
      ensures Valid() && !Busy()
      ensures result.Returned? ==>
        analysis == result.value && loadingState == Ready && error == old(error)
      ensures result.Threw? ==>
        error == Some(ErrorMessage(result.thrown)) && loadingState == Error && analysis == old(analysis)
    {
      match result
      case Returned(a) =>
        analysis := a;
        loadingState := Ready;
      case Threw(t) =>
        error := Some(ErrorMessage(t));
        loadingState := Error;
    }

    /**
     * New props from the parent. The generation effect depends on
     * `contentBasis` and `language`, so a new run starts exactly when one of
     * them changed.
     */
    method UpdateProps(contentBasis: string, language: string) returns (request: Option<Request>)
      requires Valid()
      modifies this
      ensures Valid()
      ensures this.contentBasis == contentBasis && this.language == language
      ensures request.Some? <==> (contentBasis != old(this.contentBasis) || language != old(this.language))
      ensures request.Some? ==>
        request.value == AnalysisRequest(contentBasis, language) &&
        loadingState == Loading && error == None && analysis == Text("")
      ensures request.None? ==>
        loadingState == old(loadingState) && error == old(error) && analysis == old(analysis)
    {
      var changed := contentBasis != this.contentBasis || language != this.language;
      this.contentBasis := contentBasis;
      this.language := language;
      if changed {
        var r := Start();
        request := Some(r);
      } else {
        request := None;
      }
    }
  }
}
