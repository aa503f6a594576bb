/** The WordPress credentials form of components/settings.tsx: three text
    fields, a busy flag that disables the submit button, and a submit handler
    that posts the credentials with the stored access token and clears the
    fields on every response. Toasts are kept as the last one shown. */
module Settings {
  import opened Outcomes
  import opened BrowserStorage

  /** The JSON body of the save request. */
  datatype WordPressCredentials = WordPressCredentials(
    wordpress_site_url: string, wordpress_username: string, wordpress_password: string)

  /** A react-toastify notification. */
  datatype Toast = SuccessToast(text: string) | ErrorToast(text: string)

  /** A POST to the credentials endpoint with `Authorization: Bearer <bearer>`. */
  datatype SaveRequest = SaveRequest(body: WordPressCredentials, bearer: string)

  /** The form's state, the last toast it raised and the calls it issued. */
  datatype Form = Form(wordpressUrl: string, wordpressUsername: string, wordpressPassword: string,
                       isLoading: bool, lastToast: Option<Toast>, requests: seq<SaveRequest>)

  const InitialForm := Form("", "", "", false, None, [])

  const MissingTokenMessage := "Authentication token is missing"
  const SavedMessage := "WordPress credentials saved successfully"
  const ServerFallbackMessage := "Something went wrong"
  const FallbackMessage := "An error occurred"

  /** The request body built from the three fields. */
  function Payload(f: Form): WordPressCredentials {
    WordPressCredentials(f.wordpressUrl, f.wordpressUsername, f.wordpressPassword)
  }

  /** The submit button is disabled while a save is in progress. */
  predicate SubmitEnabled(f: Form) {
    !f.isLoading
  }

  /** The error toast's text for a failed save: a non-ok response throws the
      body's `error` or "Something went wrong", and the catch shows the
      thrown message or "An error occurred". The text is never empty, and it
      is the server's or the runtime's own words whenever there are any. */
  function FailureText(reply: Reply<()>): (text: string)
    requires !reply.Ok?
    ensures text != ""
    ensures reply.NotOk? && reply.error != "" ==> text == reply.error
    ensures reply.Thrown? && reply.message != "" ==> text == reply.message
  {
    var message := match reply
      case NotOk(e) => if e != "" then e else ServerFallbackMessage
      case Thrown(m) => m;
    if message != "" then message else FallbackMessage
  }

  /** `handleSubmit` up to the awaited `fetch`: the busy flag goes up, the
      payload is taken from the fields, and a missing token ends the
      submission at once with an error toast and the flag down again. */
  function Begin(f: Form, st: Storage): Form {
    var busy := f.(isLoading := true);
    var token := GetItem(st, AccessTokenKey);
    if !Truthy(token) then
      busy.(lastToast := Some(ErrorToast(MissingTokenMessage))).(isLoading := false)
    else
      busy.(requests := busy.requests + [SaveRequest(Payload(f), token.value)])
  }

  /** The rest of `handleSubmit` once the response is in: the three fields
      are cleared on both paths, the toast reports the outcome, and the
      `finally` drops the busy flag. */
  function Finish(f: Form, reply: Reply<()>): Form {
    var cleared := f.(wordpressPassword := "").(wordpressUrl := "").(wordpressUsername := "");
    var toast := if reply.Ok? then SuccessToast(SavedMessage) else ErrorToast(FailureText(reply));
    cleared.(lastToast := Some(toast)).(isLoading := false)
  }

  /** One whole submission, the response arriving before anything else happens. */
  function Submit(f: Form, st: Storage, reply: Reply<()>): Form {
    var begun := Begin(f, st);
    if HasToken(st) then Finish(begun, reply) else begun
  }

  /** What can happen to the form: typing in one of the inputs, a click on the
      submit button (with browser storage as it is then), or the response to
      the pending save arriving. */
  datatype FormEvent =
    | UrlChanged(url: string)
    | UsernameChanged(username: string)
    | PasswordChanged(password: string)
    | SubmitClicked(storage: Storage)
    | ResponseArrived(reply: Reply<()>)

  /** The button can only be clicked when enabled; a response only arrives
      for a pending save. */
  predicate Enabled(f: Form, e: FormEvent) {
    match e
    case SubmitClicked(_) => SubmitEnabled(f)
    case ResponseArrived(_) => f.isLoading
    case _ => true
  }

  function Apply(f: Form, e: FormEvent): Form {
    match e
    case UrlChanged(v) => f.(wordpressUrl := v)
    case UsernameChanged(v) => f.(wordpressUsername := v)
    case PasswordChanged(v) => f.(wordpressPassword := v)
    case SubmitClicked(st) => Begin(f, st)
    case ResponseArrived(r) => Finish(f, r)
  }

  /** A sequence of events each of which can happen when it does. */
  predicate Feasible(f: Form, evs: seq<FormEvent>)
    decreases |evs|
  {
    evs == [] || (Enabled(f, evs[0]) && Feasible(Apply(f, evs[0]), evs[1..]))
  }

  function RunForm(f: Form, evs: seq<FormEvent>): Form
    decreases |evs|
  {
    if evs == [] then f else RunForm(Apply(f, evs[0]), evs[1..])
  }

  /** The number of responses among the events. */
  function Responses(evs: seq<FormEvent>): nat
    decreases |evs|
  {
    if evs == [] then 0 else (if evs[0].ResponseArrived? then 1 else 0) + Responses(evs[1..])
  }

  /** The component: the four `useState` slots, plus what it has shown and sent. */
  class WordPressSettings {
    var wordpressUrl: string
    var wordpressUsername: string
    var wordpressPassword: string
    var isLoading: bool
    var lastToast: Option<Toast>
    var requests: seq<SaveRequest>

    function State(): Form
      reads this
    {
      Form(wordpressUrl, wordpressUsername, wordpressPassword, isLoading, lastToast, requests)
    }

    constructor ()
      ensures State() == InitialForm
    {
      wordpressUrl := "";
      wordpressUsername := "";
      wordpressPassword := "";
      isLoading := false;
      lastToast := None;
      requests := [];
    }

    // The `useState` setters; the three field setters are also the inputs' `onChange`.

    /** The URL input's `onChange`. */
    method SetWordpressUrl(v: string)
      modifies this
      ensures State() == Apply(old(State()), UrlChanged(v))
    {
      wordpressUrl := v;
    }

    /** The username input's `onChange`. */
    method SetWordpressUsername(v: string)
      modifies this
      ensures State() == Apply(old(State()), UsernameChanged(v))
    {
      wordpressUsername := v;
    }

    /** The password input's `onChange`. */
    method SetWordpressPassword(v: string)
      modifies this
      ensures State() == Apply(old(State()), PasswordChanged(v))
    {
      wordpressPassword := v;
    }

    /** `setIsLoading`. */
    method SetIsLoading(v: bool)
      modifies this
      ensures State() == old(State()).(isLoading := v)
    {
      isLoading := v;
    }

    /** `toast.success` or `toast.error`. */
    method ShowToast(t: Toast)
      modifies this
      ensures State() == old(State()).(lastToast := Some(t))
    {
      lastToast := Some(t);
    }

    /** Issuing the save's `fetch`: the call is logged whatever its outcome. */
    method Send(r: SaveRequest)
      modifies this
      ensures State() == old(State()).(requests := old(requests) + [r])
    {
      requests := requests + [r];
    }

    /** The submit handler up to the awaited `fetch`; `pending` tells whether
      a request went out. */
    method StartSubmit(storage: Storage) returns (pending: bool)
      modifies this
      ensures State() == Begin(old(State()), storage)
      ensures pending == HasToken(storage)
    {
      SetIsLoading(true);
      var data := WordPressCredentials(wordpressUrl, wordpressUsername, wordpressPassword);
      var token := GetItem(storage, AccessTokenKey);
      if !Truthy(token) {
        ShowToast(ErrorToast(MissingTokenMessage));
        SetIsLoading(false);
        return false;
      }
      Send(SaveRequest(data, token.value));
      pending := true;
    }

    /** The submit handler after the response. */
    method FinishSubmit(reply: Reply<()>)
      modifies this
      ensures State() == Finish(old(State()), reply)
    {
      SetWordpressPassword("");
      SetWordpressUrl("");
      SetWordpressUsername("");
      if reply.Ok? {
        ShowToast(SuccessToast(SavedMessage));
      } else {
        ShowToast(ErrorToast(FailureText(reply)));
      }
      SetIsLoading(false);
    }

    /** `handleSubmit`, with the response arriving before anything else happens. */
    method HandleSubmit(storage: Storage, reply: Reply<()>)
      modifies this
      ensures State() == Submit(old(State()), storage, reply)
    {
      var pending := StartSubmit(storage);
      if pending {
        FinishSubmit(reply);
      }
    }
  }
}
