/** What the credentials form guarantees, stated over module `Settings`. */
module SettingsProperties {
  import opened Outcomes
  import opened BrowserStorage
  import opened Settings

  /** With no truthy token stored, submitting makes no call, leaves the three
      fields as they were, shows the missing-token error and ends not busy. */
  lemma MissingTokenFailsFast(f: Form, st: Storage, reply: Reply<()>)
    requires !HasToken(st)
    ensures Submit(f, st, reply) == f.(isLoading := false, lastToast := Some(ErrorToast(MissingTokenMessage)))
  {
  }

  /** With a token, one save goes out carrying the three fields verbatim under
      their wire names and the stored token; the form is then busy, its button
      disabled, and its fields untouched until the response. */
  lemma SaveSendsFieldsVerbatim(f: Form, st: Storage)
    requires HasToken(st)
    ensures var b := Begin(f, st);
      b.requests == f.requests + [SaveRequest(WordPressCredentials(f.wordpressUrl, f.wordpressUsername,
                                                                   f.wordpressPassword), st[AccessTokenKey])]
      && b.isLoading && !SubmitEnabled(b)
      && b.(isLoading := f.isLoading, requests := f.requests) == f
  {
  }

  /** Whatever the response, the three fields are cleared, the toast reports
      the outcome, the form is no longer busy and no further call is made. */
  lemma EveryResponseClearsCredentials(f: Form, reply: Reply<()>)
    ensures var r := Finish(f, reply);
      r.wordpressUrl == "" && r.wordpressUsername == "" && r.wordpressPassword == ""
      && !r.isLoading && SubmitEnabled(r) && r.requests == f.requests
      && (reply.Ok? ==> r.lastToast == Some(SuccessToast(SavedMessage)))
      && (!reply.Ok? ==> r.lastToast == Some(ErrorToast(FailureText(reply))))
  {
  }

  /** Every exit path of the handler leaves the busy flag down. */
  lemma SubmitNeverLeavesLoading(f: Form, st: Storage, reply: Reply<()>)
    ensures !Submit(f, st, reply).isLoading
  {
  }

  /** When neither the server nor the runtime gives a message, the toast
      falls back to the handler's defaults. */
  lemma FailureTextFallbacks()
    ensures FailureText(NotOk("")) == ServerFallbackMessage
    ensures FailureText(Thrown("")) == FallbackMessage
  {
  }

  /** Each input's `onChange` sets its own field and nothing else. */
  lemma EditTouchesOnlyItsField(f: Form, v: string)
    ensures Apply(f, UrlChanged(v)) == f.(wordpressUrl := v)
    ensures Apply(f, UsernameChanged(v)) == f.(wordpressUsername := v)
    ensures Apply(f, PasswordChanged(v)) == f.(wordpressPassword := v)
  {
  }

  /** The number of saves still awaiting their response. */
  function InFlight(f: Form): nat {
    if f.isLoading then 1 else 0
  }

  /** Every call issued is answered by a response before the next one is
      made: the calls issued equal the responses received plus the one
      pending, if any. */
  lemma {:induction false} CallsMatchResponses(f: Form, evs: seq<FormEvent>, answered: nat)
    requires Feasible(f, evs)
    requires |f.requests| == answered + InFlight(f)
    ensures |RunForm(f, evs).requests| == answered + Responses(evs) + InFlight(RunForm(f, evs))
    decreases |evs|
  {
    if evs != [] {
      var g := Apply(f, evs[0]);
      var answeredNow := if evs[0].ResponseArrived? then answered + 1 else answered;
      assert |g.requests| == answeredNow + InFlight(g);
      assert Responses(evs) == answeredNow - answered + Responses(evs[1..]);
      CallsMatchResponses(g, evs[1..], answeredNow);
    }
  }

  /** From a fresh form, at most one save is ever unanswered. */
  lemma AtMostOneSaveInFlight(evs: seq<FormEvent>)
    requires Feasible(InitialForm, evs)
    ensures |RunForm(InitialForm, evs).requests| <= Responses(evs) + 1
    ensures !RunForm(InitialForm, evs).isLoading ==> |RunForm(InitialForm, evs).requests| == Responses(evs)
  {
    CallsMatchResponses(InitialForm, evs, 0);
  }

  /** Every save that goes out carries a non-empty token. */
  predicate BearersPresent(f: Form) {
    forall i :: 0 <= i < |f.requests| ==> f.requests[i].bearer != ""
  }

  lemma {:induction false} OnlyAuthenticatedSaves(f: Form, evs: seq<FormEvent>)
    requires BearersPresent(f)
    ensures BearersPresent(RunForm(f, evs))
    decreases |evs|
  {
    if evs != [] {
      var g := Apply(f, evs[0]);
      assert BearersPresent(g) by {
        if evs[0].SubmitClicked? && HasToken(evs[0].storage) {
          assert g.requests == f.requests + [g.requests[|f.requests|]];
        }
      }
      OnlyAuthenticatedSaves(g, evs[1..]);
    }
  }
}
