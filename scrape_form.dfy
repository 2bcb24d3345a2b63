/** The ScrapeForm component: its fields and its submit handler. `handleSubmit`
    rejects a blank URL, builds the request payload, awaits either the save
    or the preview endpoint, hands the response to the parent's callback,
    reports the outcome in a toast and, after a successful save only, clears
    the form. As in the Dashboard, the handler is split at its `await` into
    `Submit` and `Settle`; `HandleSubmit` runs the two back to back. */
module ScrapeForm {
  import opened JsValue
  import opened JsString
  import opened Api
  import opened Toasts

  const DefaultScrapeMethod := "auto"

  const EnterUrlText := "Please enter a URL"
  const LoadingPreviewText := "Loading preview..."
  const ScrapingText := "Scraping URL..."
  const PreviewLoadedText := "\U{2728} Preview loaded successfully!"
  const SavedText := "\U{2705} URL scraped and saved!"
  const ScrapeFailedText := "Failed to scrape URL"
  const ErrorPrefix := "\U{274C} "

  /** `{ url, method, analyzeWithAI, customPrompt: customPrompt.trim() || undefined }`:
      the URL as typed, and the prompt trimmed, or left out when it is blank. */
  function PayloadOf(url: string, scrapeMethod: string, analyzeWithAI: bool, customPrompt: string): (p: ScrapePayload)
    ensures p.url == url && p.scrapeMethod == scrapeMethod && p.analyzeWithAI == analyzeWithAI
    ensures p.customPrompt.None? <==> AllWhiteSpace(customPrompt)
    ensures p.customPrompt.Some? ==> p.customPrompt.value == Trim(customPrompt) != ""
  {
    TrimEmptyIffBlank(customPrompt);
    var prompt := Trim(customPrompt);
    ScrapePayload(url, scrapeMethod, analyzeWithAI, if prompt == "" then None else Some(prompt))
  }

  /** The endpoint a submit goes to. */
  function RequestFor(isPreview: bool, payload: ScrapePayload): (r: Request)
    ensures r.PreviewScrape? <==> isPreview
    ensures r.ScrapeUrl? <==> !isPreview
    ensures r.payload == payload
  {
    if isPreview then PreviewScrape(payload) else ScrapeUrl(payload)
  }

  /** The parent's callbacks. */
  datatype Callback = OnPreview | OnScrapeComplete

  /** `if (isPreview && onPreview) ... else if (onScrapeComplete) ...`: a
      preview goes to `onPreview` when the parent gave one, and otherwise,
      like every save, to `onScrapeComplete` when that is given. */
  function CallbackFor(isPreview: bool, hasOnPreview: bool, hasOnScrapeComplete: bool): (c: Option<Callback>)
    ensures c == Some(OnPreview) <==> isPreview && hasOnPreview
    ensures c == Some(OnScrapeComplete) <==> !(isPreview && hasOnPreview) && hasOnScrapeComplete
    ensures c == None <==> !(isPreview && hasOnPreview) && !hasOnScrapeComplete
  {
    if isPreview && hasOnPreview then Some(OnPreview)
    else if hasOnScrapeComplete then Some(OnScrapeComplete)
    else None
  }

  /** The error toast's text: "❌ " and then the error response's `details`,
      else its `message`, else the error's own `message`, else the fixed
      fallback. */
  function ErrorText(e: ApiError): (r: string)
    ensures |r| > |ErrorPrefix| && r[..|ErrorPrefix|] == ErrorPrefix
    ensures ErrorField(e, "details") != "" ==> r == ErrorPrefix + ErrorField(e, "details")
    ensures ErrorField(e, "details") == "" && ErrorField(e, "message") != "" ==>
              r == ErrorPrefix + ErrorField(e, "message")
    ensures ErrorField(e, "details") == "" && ErrorField(e, "message") == "" && e.message != "" ==>
              r == ErrorPrefix + e.message
    ensures ErrorField(e, "details") == "" && ErrorField(e, "message") == "" && e.message == "" ==>
              r == ErrorPrefix + ScrapeFailedText
  {
    var candidates := [ErrorField(e, "details"), ErrorField(e, "message"), e.message];
    FirstNonEmptyPrecedence(candidates, ScrapeFailedText);
    assert candidates[1] == ErrorField(e, "message") && candidates[2] == e.message;
    assert ErrorField(e, "details") == "" && ErrorField(e, "message") != "" ==>
             FirstNonEmpty(candidates, ScrapeFailedText) == candidates[1];
    ErrorPrefix + FirstNonEmpty(candidates, ScrapeFailedText)
  }

  /** A response handed to a callback. */
  datatype Delivery = Delivery(to: Callback, body: Json)

  /** Everything the continuation of `handleSubmit` does besides turning the
      spinner off. */
  datatype SettleEffect = SettleEffect(delivery: Option<Delivery>, toast: Toast, clearFields: bool)

  /** Whether the parent's callback throws: one is called, and
      `callbackError`, the message of what it throws on this response, is
      present. */
  predicate CallbackThrows(isPreview: bool, hasOnPreview: bool, hasOnScrapeComplete: bool, callbackError: Option<string>) {
    CallbackFor(isPreview, hasOnPreview, hasOnScrapeComplete).Some? && callbackError.Some?
  }

  /** The continuation of `handleSubmit`. The callback runs inside the `try`
      and before the success message is chosen: a callback that throws sends
      the handler to its error branch with the thrown message, and a save
      whose body is null or undefined fails on reading `message`. */
  function SettleEffectOf(isPreview: bool, hasOnPreview: bool, hasOnScrapeComplete: bool,
                          callbackError: Option<string>, outcome: Outcome): (e: SettleEffect)
    ensures e.clearFields <==> e.toast.kind == Success && !isPreview
    ensures e.clearFields <==> && outcome.Responded? && !isPreview && !Nullish(outcome.body)
                               && !CallbackThrows(isPreview, hasOnPreview, hasOnScrapeComplete, callbackError)
    ensures e.toast.kind == Success || e.toast.kind == Error
    ensures outcome.Rejected? ==> e.delivery == None && e.toast == Toast(Error, ErrorText(outcome.error))
    ensures outcome.Responded? ==>
              e.delivery == (var c := CallbackFor(isPreview, hasOnPreview, hasOnScrapeComplete);
                             if c.Some? then Some(Delivery(c.value, outcome.body)) else None)
    ensures outcome.Responded? && CallbackThrows(isPreview, hasOnPreview, hasOnScrapeComplete, callbackError) ==>
              e.toast == Toast(Error, ErrorText(ApiError(JUndefined, callbackError.value)))
    ensures outcome.Responded? && isPreview && !CallbackThrows(isPreview, hasOnPreview, hasOnScrapeComplete, callbackError) ==>
              e.toast == Toast(Success, PreviewLoadedText)
    ensures outcome.Responded? && !isPreview && Nullish(outcome.body)
            && !CallbackThrows(isPreview, hasOnPreview, hasOnScrapeComplete, callbackError) ==>
              e.toast == Toast(Error, ErrorText(ApiError(JUndefined, ReadErrorText(outcome.body, "message"))))
    ensures e.toast.kind == Error ==>
              |e.toast.message| > |ErrorPrefix| && e.toast.message[..|ErrorPrefix|] == ErrorPrefix
    ensures e.toast.kind == Success && !isPreview ==>
              e.toast.message == (if TextOf(Prop(outcome.body, "message")) != ""
                                  then TextOf(Prop(outcome.body, "message")) else SavedText)
  {
    match outcome
    case Rejected(err) => SettleEffect(None, Toast(Error, ErrorText(err)), false)
    case Responded(body) =>
      var c := CallbackFor(isPreview, hasOnPreview, hasOnScrapeComplete);
      var delivery := if c.Some? then Some(Delivery(c.value, body)) else None;
      if c.Some? && callbackError.Some? then
        SettleEffect(delivery, Toast(Error, ErrorText(ApiError(JUndefined, callbackError.value))), false)
      else if isPreview then SettleEffect(delivery, Toast(Success, PreviewLoadedText), false)
      else
        match Read(body, "message")
        case Err(typeError) => SettleEffect(delivery, Toast(Error, ErrorText(ApiError(JUndefined, typeError))), false)
        case Ok(m) => SettleEffect(delivery, Toast(Success, FirstNonEmpty([TextOf(m)], SavedText)), true)
  }

  /** What the application's own `handleScrapeComplete` and `handlePreview`
      throw on a response body: both read `data.data`, which throws on a null
      or undefined body. */
  function AppCallbackError(body: Json): (thrown: Option<string>)
    ensures thrown.Some? <==> Nullish(body)
    ensures thrown.Some? ==> thrown.value == ReadErrorText(body, "data")
  {
    match Read(body, "data")
    case Err(typeError) => Some(typeError)
    case Ok(_) => None
  }

  /** With the application's callbacks, a preview whose body is null shows
      the TypeError of the callback, not the preview success message, and a
      save with a null body names the callback's read of `data` rather than
      the handler's read of `message`. */
  lemma NullBodyWithAppCallbacks(isPreview: bool)
    ensures var e := SettleEffectOf(isPreview, true, true, AppCallbackError(JNull), Responded(JNull));
            && e.toast == Toast(Error, ErrorPrefix + "Cannot read properties of null (reading 'data')")
            && e.delivery == Some(Delivery(if isPreview then OnPreview else OnScrapeComplete, JNull))
            && !e.clearFields
  {
    var thrown := AppCallbackError(JNull);
    var text := "Cannot read properties of null (reading 'data')";
    assert ReadErrorText(JNull, "data") == "Cannot read properties of " + "null" + " (reading '" + "data" + "')";
    assert "Cannot read properties of " + "null" + " (reading '" + "data" + "')" == text;
    assert thrown == Some(text);
    assert CallbackThrows(isPreview, true, true, thrown);
    var err := ApiError(JUndefined, text);
    assert ErrorField(err, "details") == "" && ErrorField(err, "message") == "";
    assert ErrorText(err) == ErrorPrefix + text;
  }

  /** A submit waiting for the backend: the request sent, whether it was a
      preview, and the loading toast to update. */
  datatype Submission = Submission(request: Request, isPreview: bool, toastId: nat)

  class ScrapeFormState {
    var url: string
    var customPrompt: string
    var analyzeWithAI: bool
    var showPromptInput: bool
    var loading: bool
    /** The responses handed to the parent, oldest first. */
    var delivered: seq<Delivery>
    /** `method` is initialised to "auto" and never set. */
    const scrapeMethod: string
    const hasOnPreview: bool
    const hasOnScrapeComplete: bool
    const toaster: Toaster

    constructor (toaster: Toaster, hasOnScrapeComplete: bool, hasOnPreview: bool)
      ensures this.toaster == toaster
      ensures this.hasOnScrapeComplete == hasOnScrapeComplete && this.hasOnPreview == hasOnPreview
      ensures url == "" && customPrompt == "" && scrapeMethod == DefaultScrapeMethod
      ensures analyzeWithAI && !showPromptInput && !loading && delivered == []
    {
      this.toaster := toaster;
      this.hasOnScrapeComplete := hasOnScrapeComplete;
      this.hasOnPreview := hasOnPreview;
      url := "";
      customPrompt := "";
      scrapeMethod := DefaultScrapeMethod;
      analyzeWithAI := true;
      showPromptInput := false;
      loading := false;
      delivered := [];
    }

    /** The URL input's `onChange`. */
    method SetUrl(value: string)
      modifies this`url
      ensures url == value
    {
      url := value;
    }

    /** The prompt textarea's `onChange`. */
    method SetCustomPrompt(value: string)
      modifies this`customPrompt
      ensures customPrompt == value
    {
      customPrompt := value;
    }

    /** The "Analyze content with AI" checkbox. */
    method SetAnalyzeWithAI(checked: bool)
      modifies this`analyzeWithAI
      ensures analyzeWithAI == checked
    {
      analyzeWithAI := checked;
    }

    /** The "Add Custom Prompt" / "Hide" button. */
    method TogglePromptInput()
      modifies this`showPromptInput
      ensures showPromptInput == !old(showPromptInput)
    {
      showPromptInput := !showPromptInput;
    }

    /** `handleSubmit` up to its await. A blank URL gets a warning and
        nothing else: no request, no loading toast, `loading` untouched.
        Otherwise a loading toast opens, `loading` turns on and the payload
        goes to the preview or the save endpoint. */
    method Submit(isPreview: bool) returns (sub: Option<Submission>)
      requires toaster.Valid()
      modifies this`loading, toaster
      ensures toaster.Valid()
      ensures AllWhiteSpace(url) ==>
                && sub == None && loading == old(loading)
                && toaster.log == old(toaster.log) + [Shown(Warning, EnterUrlText)]
                && toaster.nextId == old(toaster.nextId)
      ensures !AllWhiteSpace(url) ==>
                && loading
                && sub == Some(Submission(
                     RequestFor(isPreview, PayloadOf(url, scrapeMethod, analyzeWithAI, customPrompt)),
                     isPreview, old(toaster.nextId)))
                && toaster.log == old(toaster.log)
                     + [LoadingShown(old(toaster.nextId), if isPreview then LoadingPreviewText else ScrapingText)]
                && toaster.nextId == old(toaster.nextId) + 1
    {
      TrimEmptyIffBlank(url);
      if Trim(url) == "" {
        toaster.Show(Warning, EnterUrlText);
        return None;
      }
      var toastId := toaster.ShowLoading(if isPreview then LoadingPreviewText else ScrapingText);
      loading := true;
      var payload := PayloadOf(url, scrapeMethod, analyzeWithAI, customPrompt);
      sub := Some(Submission(RequestFor(isPreview, payload), isPreview, toastId));
    }

    /** `handleSubmit` after its await: the response goes to the parent, the
        loading toast becomes the success or error toast, a successful save
        clears both fields, and `loading` turns off whatever happened. */
    method Settle(sub: Submission, callbackError: Option<string>, outcome: Outcome)
      requires toaster.Valid()
      modifies this`url, this`customPrompt, this`loading, this`delivered, toaster
      ensures toaster.Valid() && !loading && toaster.nextId == old(toaster.nextId)
      ensures var e := SettleEffectOf(sub.isPreview, hasOnPreview, hasOnScrapeComplete, callbackError, outcome);
              && delivered == old(delivered) + (if e.delivery.Some? then [e.delivery.value] else [])
              && toaster.log == old(toaster.log) + [Updated(sub.toastId, e.toast.kind, e.toast.message)]
              && url == (if e.clearFields then "" else old(url))
              && customPrompt == (if e.clearFields then "" else old(customPrompt))
    {
      var e := SettleEffectOf(sub.isPreview, hasOnPreview, hasOnScrapeComplete, callbackError, outcome);
      if e.delivery.Some? {
        delivered := delivered + [e.delivery.value];
      }
      toaster.Update(sub.toastId, e.toast.kind, e.toast.message);
      if e.clearFields {
        url := "";
        customPrompt := "";
      }
      loading := false;
    }

    /** The whole of `handleSubmit` when nothing else runs while it awaits:
        a blank URL sends nothing; otherwise exactly one request goes out,
        `loading` is on while it is outstanding and off afterwards, and the
        URL is empty afterwards exactly when `SettleEffectOf` clears the
        fields: after a successful save whose callback did not throw. */
    method HandleSubmit(isPreview: bool, callbackError: Option<string>, outcome: Outcome) returns (sent: Option<Request>, loadingWhileSent: bool)
      requires toaster.Valid()
      modifies this`url, this`customPrompt, this`loading, this`delivered, toaster
      ensures toaster.Valid()
      ensures AllWhiteSpace(old(url)) ==> sent == None && loading == old(loading)
                                          && url == old(url) && customPrompt == old(customPrompt)
                                          && delivered == old(delivered)
                                          && toaster.log == old(toaster.log) + [Shown(Warning, EnterUrlText)]
                                          && toaster.nextId == old(toaster.nextId)
      ensures !AllWhiteSpace(old(url)) ==>
                var e := SettleEffectOf(isPreview, hasOnPreview, hasOnScrapeComplete, callbackError, outcome);
                && delivered == old(delivered) + (if e.delivery.Some? then [e.delivery.value] else [])
                && toaster.log == old(toaster.log)
                     + [LoadingShown(old(toaster.nextId), if isPreview then LoadingPreviewText else ScrapingText),
                        Updated(old(toaster.nextId), e.toast.kind, e.toast.message)]
                && toaster.nextId == old(toaster.nextId) + 1
                && (url == "" <==> e.clearFields)
                && url == (if e.clearFields then "" else old(url))
                && customPrompt == (if e.clearFields then "" else old(customPrompt))
      ensures !AllWhiteSpace(old(url)) ==>
                && sent == Some(RequestFor(isPreview, PayloadOf(old(url), scrapeMethod, analyzeWithAI, old(customPrompt))))
                && loadingWhileSent && !loading
    {
      var sub := Submit(isPreview);
      loadingWhileSent := loading;
      if sub.None? {
        sent := None;
        return;
      }
      sent := Some(sub.value.request);
      assert old(url) != "";
      Settle(sub.value, callbackError, outcome);
    }
  }
}
