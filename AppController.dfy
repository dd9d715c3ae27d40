/**
 * The submit controller of App.tsx: four pieces of state (`videoUrl`,
 * `urlValidating`, `contentLoading`, `reloadCounter`, plus the chosen
 * `language`) and the handlers that change them.
 *
 * `handleSubmit` awaits the URL validator once; the model splits it into
 * `BeginSubmit`, which runs up to the `await` and says whether the validator is
 * invoked and with what, and `ValidationResolved`, which runs after it.
 * The validator itself is not modelled: its outcome is a parameter.
 */
module AppController {
  import opened JsString

  /** The language selected when the page loads. */
  const DefaultLanguage: string := "Português (Brasil)"

  /** What the URL validator settles with. */
  datatype ValidationResult = ValidationResult(isValid: bool, error: Option<string>)

  /** What `handleSubmit` does up to its `await`. */
  datatype SubmitStep =
    | RefocusInput              // the trimmed input is empty: focus the input, stop
    | AlreadyValidating         // the re-entrancy guard: a validation is pending, stop
    | Validate(inputValue: string)  // reset the state and await the validator on this text

  /**
   * The synchronous part of `handleSubmit`: an empty (whitespace-only) input
   * short-circuits before the guard; otherwise a pending validation makes the
   * call a no-op; otherwise the trimmed input goes to the validator.
   */
  function SubmitOutcome(raw: string, urlValidating: bool): (step: SubmitStep)
    ensures step == RefocusInput <==> forall i :: 0 <= i < |raw| ==> IsWhitespace(raw[i])
    ensures step == AlreadyValidating <==> Trim(raw) != "" && urlValidating
    ensures step.Validate? <==> Trim(raw) != "" && !urlValidating
    ensures step.Validate? ==> step.inputValue == Trim(raw) && step.inputValue != ""
  {
    var inputValue := Trim(raw);
    if inputValue == "" then RefocusInput
    else if urlValidating then AlreadyValidating
    else Validate(inputValue)
  }

  /** The alert after a failed validation: the validator's error, or a fallback. */
  function AlertText(error: Option<string>): (text: string)
    ensures text != ""
    ensures error.Some? && error.value != "" ==> text == error.value
    ensures error.None? || error.value == "" ==> text == "Invalid YouTube URL"
  {
    OrElse(error, "Invalid YouTube URL")
  }

  /**
   * The `disabled` attribute shared by the language select, the input and the
   * button: the controls are disabled exactly when the button does not offer to
   * analyse.
   */
  function ControlsDisabled(urlValidating: bool, contentLoading: bool): (disabled: bool)
    ensures disabled <==> ButtonLabel(urlValidating, contentLoading) != "Analyze Video"
  {
    urlValidating || contentLoading
  }

  /** The button label: validation takes precedence over loading. */
  function ButtonLabel(urlValidating: bool, contentLoading: bool): (caption: string)
    ensures caption == "Validating URL..." <==> urlValidating
    ensures caption == "Analyzing..." <==> !urlValidating && contentLoading
    ensures caption == "Analyze Video" <==> !urlValidating && !contentLoading
  {
    if urlValidating then "Validating URL..."
    else if contentLoading then "Analyzing..."
    else "Analyze Video"
  }

  /**
   * `handleKeyDown`'s guard: Enter starts a submit only while neither flag is
   * set, which is exactly while the controls are enabled.
   */
  function EnterSubmits(key: string, urlValidating: bool, contentLoading: bool): (submits: bool)
    ensures submits <==> key == "Enter" && !ControlsDisabled(urlValidating, contentLoading)
  {
    key == "Enter" && !urlValidating && !contentLoading
  }

  /** Enter submits exactly when the button offers to analyse, that is when nothing is pending. */
  lemma EnterSubmitsWhenIdle(key: string, urlValidating: bool, contentLoading: bool)
    ensures EnterSubmits(key, urlValidating, contentLoading) <==>
      key == "Enter" && ButtonLabel(urlValidating, contentLoading) == "Analyze Video"
    ensures EnterSubmits(key, urlValidating, contentLoading) ==>
      !ControlsDisabled(urlValidating, contentLoading)
  {
  }

  /** The right-hand content area. */
  datatype ContentArea =
    | Mounted(key: nat, contentBasis: string, language: string)
    | Placeholder(message: string)

  /** The conditional mount: a container keyed by the counter exactly when a URL is set. */
  function RenderContentArea(videoUrl: string, reloadCounter: nat, language: string,
                             urlValidating: bool): (area: ContentArea)
    ensures area.Mounted? <==> videoUrl != ""
    ensures area.Mounted? ==> area.key == reloadCounter && area.contentBasis == videoUrl && area.language == language
    ensures area.Placeholder? && urlValidating ==> area.message == "Validating URL..."
    ensures area.Placeholder? && !urlValidating ==> area.message == "Paste a YouTube URL to get started"
  {
    if videoUrl != "" then Mounted(reloadCounter, videoUrl, language)
    else if urlValidating then Placeholder("Validating URL...")
    else Placeholder("Paste a YouTube URL to get started")
  }

  class App {
    var videoUrl: string
    var language: string
    var urlValidating: bool
    var contentLoading: bool
    var reloadCounter: nat

    /** A validation in progress always runs with the previous video cleared. */
    ghost predicate Valid()
      reads this
    {
      urlValidating ==> videoUrl == ""
    }

    /** The initial `useState` values. */
    constructor ()
      ensures Valid()
      ensures videoUrl == "" && language == DefaultLanguage
      ensures !urlValidating && !contentLoading && reloadCounter == 0
    {
      videoUrl := "";
      language := DefaultLanguage;
      urlValidating := false;
      contentLoading := false;
      reloadCounter := 0;
    }

    function Disabled(): bool
      reads this
    {
      ControlsDisabled(urlValidating, contentLoading)
    }

    function Label(): string
      reads this
    {
      ButtonLabel(urlValidating, contentLoading)
    }

    function ContentArea(): ContentArea
      reads this
    {
      RenderContentArea(videoUrl, reloadCounter, language, urlValidating)
    }

    /** `handleSubmit` up to its `await`. */
    method BeginSubmit(raw: string) returns (step: SubmitStep)
      requires Valid()
      modifies this
      ensures Valid()
      ensures step == SubmitOutcome(raw, old(urlValidating))
      ensures !step.Validate? ==>
        videoUrl == old(videoUrl) && urlValidating == old(urlValidating) &&
        contentLoading == old(contentLoading)
      ensures step.Validate? ==> urlValidating && videoUrl == "" && !contentLoading
      ensures reloadCounter == old(reloadCounter) && language == old(language)
    {
      var inputValue := Trim(raw);
      if inputValue == "" {
        return RefocusInput;
      }
      if urlValidating {
        return AlreadyValidating;
      }
      urlValidating := true;
      videoUrl := "";
      contentLoading := false;
      step := Validate(inputValue);
    }

    /** `handleKeyDown`: Enter runs `handleSubmit` unless validating or loading. */
    method KeyDown(key: string, raw: string) returns (step: Option<SubmitStep>)
      requires Valid()
      modifies this
      ensures Valid()
      ensures step.Some? <==> EnterSubmits(key, old(urlValidating), old(contentLoading))
      ensures step.Some? ==> step.value == SubmitOutcome(raw, old(urlValidating))
      ensures step.Some? && step.value.Validate? ==> urlValidating && videoUrl == "" && !contentLoading
      ensures step.None? || !step.value.Validate? ==>
        videoUrl == old(videoUrl) && urlValidating == old(urlValidating) &&
        contentLoading == old(contentLoading)
      ensures reloadCounter == old(reloadCounter) && language == old(language)
    {
      if key == "Enter" && !urlValidating && !contentLoading {
        var s := BeginSubmit(raw);
        step := Some(s);
      } else {
        step := None;
      }
    }

    /** `proceedWithVideo`: show the URL and bump the counter that keys the container. */
    method ProceedWithVideo(url: string)
      modifies this
      ensures Valid()
      ensures videoUrl == url && !urlValidating && reloadCounter == old(reloadCounter) + 1
      ensures contentLoading == old(contentLoading) && language == old(language)
    {
      videoUrl := url;
      reloadCounter := reloadCounter + 1;
      urlValidating := false;
    }

    /**
     * `handleSubmit` after its `await`: a valid URL proceeds; an invalid one is
     * alerted (the returned text) and leaves the video cleared.
     */
    method ValidationResolved(inputValue: string, result: ValidationResult) returns (alert: Option<string>)
      requires Valid() && urlValidating
      modifies this
      ensures Valid() && !urlValidating
      ensures result.isValid ==>
        alert == None && videoUrl == inputValue && reloadCounter == old(reloadCounter) + 1
      ensures !result.isValid ==>
        alert == Some(AlertText(result.error)) && videoUrl == "" && reloadCounter == old(reloadCounter)
      ensures contentLoading == old(contentLoading) && language == old(language)
    {
      if result.isValid {
        ProceedWithVideo(inputValue);
        alert := None;
      } else {
        alert := Some(AlertText(result.error));
        urlValidating := false;
      }
    }

    /** The input's `onChange`: any edit clears the video. */
    method OnInputChange()
      requires Valid()
      modifies this`videoUrl
      ensures Valid() && videoUrl == ""
    {
      videoUrl := "";
    }

    /** `handleContentLoadingStateChange`: the container's busy signal. */
    method OnLoadingChange(isLoading: bool)
      requires Valid()
      modifies this`contentLoading
      ensures Valid() && contentLoading == isLoading
    {
      contentLoading := isLoading;
    }

    /** The language select's `onChange`. */
    method SelectLanguage(language: string)
      requires Valid()
      modifies this`language
      ensures Valid() && this.language == language
    {
      this.language := language;
    }
  }
}
