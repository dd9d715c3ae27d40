/**
 * The page as a whole: the controller of App.tsx together with the content
 * container it mounts under `key={reloadCounter}` whenever `videoUrl` is set.
 *
 * React gives each key its own container instance and drops state updates
 * aimed at an instance that is no longer mounted. A generation run is therefore
 * tagged here with the key of the container that started it, and a run that
 * settles after its container was replaced by a newer key, or unmounted because
 * `videoUrl` was cleared, changes nothing. The container itself compares no
 * tokens: the comparison below stands for React's instance identity.
 *
 * The container's loading effect reports its busy signal to the controller
 * after every change of its state; each step below ends with that report.
 */
module Page {
  import opened JsString
  import opened Parse
  import opened ContentContainer
  import opened AppController

  /** A generation run: the key of the container that started it and what it asked for. */
  datatype Run = Run(key: nat, request: Request)

  class Page {
    const app: App
    var view: Container?
    /** The trimmed input held by a `handleSubmit` suspended at its `await`. */
    var pendingInput: Option<string>

    ghost predicate Valid()
      reads this, app, view
    {
      app.Valid() &&
      (view == null <==> app.videoUrl == "") &&
      (view != null ==>
        view.Valid() && view.contentBasis == app.videoUrl && view.language == app.language &&
        app.contentLoading == view.Busy()) &&
      (pendingInput.Some? <==> app.urlValidating) &&
      (pendingInput.Some? ==> pendingInput.value != "")
    }

    /**
     * While a container is mounted no validation is pending, and the controls
     * are disabled exactly while the container is loading; a container is
     * mounted exactly when the content area renders one, under the current key.
     */
    lemma DisabledExactlyWhenBusy()
      requires Valid()
      ensures view != null ==> pendingInput == None && (app.Disabled() <==> view.loadingState == Loading)
      ensures pendingInput.Some? ==> app.Disabled() && view == null
      ensures view != null <==> app.ContentArea().Mounted?
      ensures view != null ==> app.ContentArea() == Mounted(app.reloadCounter, view.contentBasis, view.language)
    {
    }

    /** The page as loaded: nothing shown, nothing pending. */
    constructor ()
      ensures Valid() && fresh(app)
      ensures view == null && pendingInput == None
      ensures app.videoUrl == "" && app.language == DefaultLanguage
      ensures app.reloadCounter == 0 && !app.urlValidating && !app.contentLoading
    {
      app := new App();
      view := null;
      pendingInput := None;
    }

    /**
     * A click on the button. A non-empty submit unmounts the current container,
     * so whatever run it still has in flight can no longer change anything.
     */
    method Submit(raw: string) returns (step: SubmitStep)
      requires Valid()
      modifies this, app
      ensures Valid()
      ensures step == SubmitOutcome(raw, old(app.urlValidating))
      ensures !step.Validate? ==>
        view == old(view) && pendingInput == old(pendingInput) &&
        app.videoUrl == old(app.videoUrl) && app.urlValidating == old(app.urlValidating) &&
        app.contentLoading == old(app.contentLoading)
      ensures step.Validate? ==>
        view == null && pendingInput == Some(step.inputValue) &&
        app.urlValidating && !app.contentLoading && app.Disabled()
      ensures app.reloadCounter == old(app.reloadCounter) && app.language == old(app.language)
    {
      step := app.BeginSubmit(raw);
      if step.Validate? {
        view := null;
        pendingInput := Some(step.inputValue);
      }
    }

    /** A key press in the input field. */
    method KeyDown(key: string, raw: string) returns (step: Option<SubmitStep>)
      requires Valid()
      modifies this, app
      ensures Valid()
      ensures step.Some? <==> EnterSubmits(key, old(app.urlValidating), old(app.contentLoading))
      ensures step.Some? ==> step.value == SubmitOutcome(raw, old(app.urlValidating))
      ensures step.None? || !step.value.Validate? ==>
        view == old(view) && pendingInput == old(pendingInput) &&
        app.videoUrl == old(app.videoUrl) && app.urlValidating == old(app.urlValidating) &&
        app.contentLoading == old(app.contentLoading)
      ensures step.Some? && step.value.Validate? ==>
        view == null && pendingInput == Some(step.value.inputValue) && app.urlValidating &&
        !app.contentLoading
      ensures app.reloadCounter == old(app.reloadCounter) && app.language == old(app.language)
    {
      if key == "Enter" && !app.urlValidating && !app.contentLoading {
        var s := Submit(raw);
        step := Some(s);
      } else {
        step := None;
      }
    }

    /**
     * The validator settles for the pending submit. A valid URL mounts a fresh
     * container under the next key, whose first run starts at once; an invalid
     * one is alerted and nothing is mounted.
     */
    method ValidationResolved(result: ValidationResult) returns (alert: Option<string>, run: Option<Run>)
      requires Valid() && pendingInput.Some?
      modifies this, app
      ensures Valid() && pendingInput == None && !app.urlValidating
      ensures app.language == old(app.language)
      ensures result.isValid ==>
        alert == None && app.reloadCounter == old(app.reloadCounter) + 1 &&
        app.videoUrl == old(pendingInput.value) &&
        view != null && fresh(view) && view.loadingState == Loading && app.contentLoading &&
        run == Some(Run(app.reloadCounter, AnalysisRequest(app.videoUrl, app.language)))
      ensures !result.isValid ==>
        alert == Some(AlertText(result.error)) && run == None &&
        view == null && app.videoUrl == "" && app.reloadCounter == old(app.reloadCounter) &&
        app.contentLoading == old(app.contentLoading)
    {
      var inputValue := pendingInput.value;
      alert := app.ValidationResolved(inputValue, result);
      pendingInput := None;
      if result.isValid {
        var c := new Container(app.videoUrl, app.language);
        var request := c.Start();
        view := c;
        app.OnLoadingChange(c.Busy());
        run := Some(Run(app.reloadCounter, request));
      } else {
        run := None;
      }
    }

    /** An edit of the input: the video is cleared and the container unmounted. */
    method EditInput()
      requires Valid()
      modifies this, app
      ensures Valid() && view == null && app.videoUrl == ""
      ensures app.reloadCounter == old(app.reloadCounter) && app.language == old(app.language)
      ensures app.urlValidating == old(app.urlValidating) && app.contentLoading == old(app.contentLoading)
      ensures pendingInput == old(pendingInput)
    {
      app.OnInputChange();
      view := null;
    }

    /**
     * A new language. A mounted container gets it as a prop, and a changed
     * language starts a new run in the same container, under the same key.
     */
    method SelectLanguage(language: string) returns (run: Option<Run>)
      requires Valid()
      modifies app, view
      ensures Valid() && app.language == language
      ensures app.reloadCounter == old(app.reloadCounter) && app.videoUrl == old(app.videoUrl)
      ensures app.urlValidating == old(app.urlValidating)
      ensures run.Some? <==> view != null && language != old(app.language)
      ensures run.Some? ==>
        run.value == Run(app.reloadCounter, AnalysisRequest(app.videoUrl, language)) &&
        view.loadingState == Loading && app.contentLoading
      ensures run.None? ==>
        app.contentLoading == old(app.contentLoading) &&
        (view != null ==>
          view.loadingState == old(view.loadingState) && view.analysis == old(view.analysis) &&
          view.error == old(view.error))
    {
      app.SelectLanguage(language);
      run := None;
      if view != null {
        var started := view.UpdateProps(app.videoUrl, language);
        app.OnLoadingChange(view.Busy());
        if started.Some? {
          run := Some(Run(app.reloadCounter, started.value));
        }
      }
    }

    /**
     * A generation run settles. Only the container mounted under the run's key
     * takes the outcome; for any other key, and when nothing is mounted, the
     * page is left exactly as it was.
     */
    method GenerationResolved<J>(key: nat, response: Outcome<string>, json: JsonOracle<J>)
      requires Valid()
      modifies app, view
      ensures Valid()
      ensures old(view) == null || key != old(app.reloadCounter) ==>
        unchanged(app) && (view != null ==> unchanged(view))
      ensures key < app.reloadCounter ==> unchanged(app) && (view != null ==> unchanged(view))
      ensures view != null && key == app.reloadCounter ==>
        !app.contentLoading &&
        match GenerateAnalysis(response, json)
        case Returned(a) => view.loadingState == Ready && view.analysis == a && view.error == old(view.error)
        case Threw(t) =>
          view.loadingState == Error && view.error == Some(ErrorMessage(t)) && view.analysis == old(view.analysis)
      ensures app.reloadCounter == old(app.reloadCounter) && app.videoUrl == old(app.videoUrl)
      ensures app.language == old(app.language) && app.urlValidating == old(app.urlValidating)
      ensures view != null ==> view.contentBasis == old(view.contentBasis) && view.language == old(view.language)
    {
      if view != null && key == app.reloadCounter {
        view.Resolve(GenerateAnalysis(response, json));
        app.OnLoadingChange(view.Busy());
      }
    }
  }

  /**
   * Submit 1 starts generating; submit 2 supersedes it before it settles.
   * However run 1 settles, it leaves the page loading under the newer key.
   */
  method ScenarioSupersededRun<J>(url1: string, url2: string, late: Outcome<string>, json: JsonOracle<J>)
    requires url1 != "" && !IsWhitespace(url1[0]) && !IsWhitespace(url1[|url1| - 1])
    requires url2 != "" && !IsWhitespace(url2[0]) && !IsWhitespace(url2[|url2| - 1])
  {
    var page := new Page();
    TrimOfTrimmed(url1);
    var s1 := page.Submit(url1);
    assert s1 == Validate(url1);
    var alert1, run1 := page.ValidationResolved(ValidationResult(true, None));
    assert run1 == Some(Run(1, AnalysisRequest(url1, DefaultLanguage)));

    TrimOfTrimmed(url2);
    var s2 := page.Submit(url2);
    assert s2 == Validate(url2) && page.view == null;
    var alert2, run2 := page.ValidationResolved(ValidationResult(true, None));
    assert run2.value.key == 2 && page.app.reloadCounter == 2;

    page.GenerationResolved(run1.value.key, late, json);
    assert page.view.View() == Spinner && page.app.contentLoading;
  }

  /** The run of the mounted container settles with an analysis, which is shown. */
  method ScenarioCurrentRun<J>(url: string, current: Outcome<string>, json: JsonOracle<J>)
    requires url != "" && !IsWhitespace(url[0]) && !IsWhitespace(url[|url| - 1])
    requires GenerateAnalysis(current, json) == Returned(Text("B"))
  {
    var page := new Page();
    TrimOfTrimmed(url);
    var step := page.Submit(url);
    assert step == Validate(url);
    var alert, run := page.ValidationResolved(ValidationResult(true, None));
    page.GenerationResolved(run.value.key, current, json);
    assert page.view.View() == AnalysisView("B") && !page.app.Disabled();
  }

  /** An invalid URL is alerted with the validator's message and nothing is generated. */
  method ScenarioInvalidUrl(url: string)
    requires url != "" && !IsWhitespace(url[0]) && !IsWhitespace(url[|url| - 1])
  {
    var page := new Page();
    TrimOfTrimmed(url);
    var step := page.Submit(url);
    assert step == Validate(url);
    var alert, run := page.ValidationResolved(ValidationResult(false, Some("Invalid YouTube URL")));
    assert alert == Some("Invalid YouTube URL") && run == None;
    assert page.view == null && page.app.ContentArea().Placeholder? && !page.app.Disabled();
  }

  /** A whitespace-only submit changes nothing and reaches no validator. */
  method ScenarioBlankInput()
  {
    var page := new Page();
    var step := page.Submit(" \t ");
    assert step == RefocusInput && page.pendingInput == None && !page.app.urlValidating;
  }
}
