/** The submit handler of the form: one outbound call chosen by mode, then a
    navigation and/or a notification depending on the result, then a reset. */
module FormSubmit {
  import opened FormValidation

  const RegisterEndpoint: string := "/api/auth/register"
  const HomeRoute: string := "/"
  const ChatsRoute: string := "/chats"
  const RegisterFailed: string := "Something went wrong"
  const LoginFailed: string := "Invalid email or password"

  /** The two fields the handler reads from the awaited result. A field the
      result does not have reads as false. */
  datatype Response = Response(ok: bool, error: bool)

  /** A fetch Response has an `ok` status but no `error` field. */
  function FetchResponse(ok: bool): Response
  {
    Response(ok, false)
  }

  /** How the awaited call ends: with a result, or by throwing. */
  datatype CallOutcome = Returned(res: Response) | Threw

  /** What the handler does to the outside world, in the order it does it. */
  datatype Effect =
    | Fetch(url: string, httpMethod: string, contentType: string, body: FormValues)
    | SignIn(provider: string, credentials: FormValues, redirect: bool)
    | Navigate(path: string)
    | Toast(message: string)

  predicate KnownMode(mode: string)
  {
    mode == RegisterMode || mode == LoginMode
  }

  /** The call issued for `mode`, if any. */
  function OutboundCall(mode: string, data: FormValues): seq<Effect>
  {
    if mode == RegisterMode then [Fetch(RegisterEndpoint, "POST", "application/json", data)]
    else if mode == LoginMode then [SignIn("credentials", data, false)]
    else []
  }

  function SuccessRoute(mode: string): string
  {
    if mode == RegisterMode then HomeRoute else ChatsRoute
  }

  function FailureToast(mode: string): string
  {
    if mode == RegisterMode then RegisterFailed else LoginFailed
  }

  /** The two independent checks on the result: `ok` navigates, `error` notifies. */
  function Reaction(mode: string, res: Response): seq<Effect>
  {
    (if res.ok then [Navigate(SuccessRoute(mode))] else []) +
    (if res.error then [Toast(FailureToast(mode))] else [])
  }

  /** The handler runs to its end (reset and loading cleared) only for a known mode whose call returned. */
  predicate Completes(mode: string, outcome: CallOutcome)
  {
    KnownMode(mode) && outcome.Returned?
  }

  /** Every effect one submission in `mode` with `data` produces. */
  function SubmitEffects(mode: string, data: FormValues, outcome: CallOutcome): seq<Effect>
  {
    OutboundCall(mode, data) + (if Completes(mode, outcome) then Reaction(mode, outcome.res) else [])
  }

  /** The effects a form in `mode` may ever have produced. */
  predicate Permitted(mode: string, e: Effect)
  {
    match e
    case Fetch(url, m, _, _) => mode == RegisterMode && url == RegisterEndpoint && m == "POST"
    case SignIn(p, _, redirect) => mode == LoginMode && p == "credentials" && !redirect
    case Navigate(path) => KnownMode(mode) && path == SuccessRoute(mode)
    case Toast(msg) => KnownMode(mode) && msg == FailureToast(mode)
  }

  lemma SubmitEffectsPermitted(mode: string, data: FormValues, outcome: CallOutcome)
    ensures forall i :: 0 <= i < |SubmitEffects(mode, data, outcome)| ==>
      Permitted(mode, SubmitEffects(mode, data, outcome)[i])
  {
  }

  /** Register: the POST is issued with the form data; `ok` leads home; `error` would toast. */
  lemma RegisterOutcome(data: FormValues, res: Response)
    ensures SubmitEffects(RegisterMode, data, Returned(res))[0] ==
      Fetch(RegisterEndpoint, "POST", "application/json", data)
    ensures Navigate(HomeRoute) in SubmitEffects(RegisterMode, data, Returned(res)) <==> res.ok
    ensures Toast(RegisterFailed) in SubmitEffects(RegisterMode, data, Returned(res)) <==> res.error
    ensures Navigate(ChatsRoute) !in SubmitEffects(RegisterMode, data, Returned(res))
  {
  }

  /** A fetch Response never carries `error`, so registration never shows its toast. */
  lemma RegisterNeverToasts(data: FormValues, ok: bool, msg: string)
    ensures Toast(msg) !in SubmitEffects(RegisterMode, data, Returned(FetchResponse(ok)))
  {
  }

  /** Login: signIn is called without redirect; `ok` leads to the chats; `error` toasts; both may happen. */
  lemma LoginOutcome(data: FormValues, res: Response)
    ensures SubmitEffects(LoginMode, data, Returned(res))[0] == SignIn("credentials", data, false)
    ensures Navigate(ChatsRoute) in SubmitEffects(LoginMode, data, Returned(res)) <==> res.ok
    ensures Toast(LoginFailed) in SubmitEffects(LoginMode, data, Returned(res)) <==> res.error
    ensures res.ok && res.error ==>
      SubmitEffects(LoginMode, data, Returned(res)) ==
        [SignIn("credentials", data, false), Navigate(ChatsRoute), Toast(LoginFailed)]
  {
  }

  /** A call that throws: the call was issued, nothing after it happens. */
  lemma ThrownCallSkipsReaction(mode: string, data: FormValues)
    ensures SubmitEffects(mode, data, Threw) == OutboundCall(mode, data)
    ensures |SubmitEffects(mode, data, Threw)| == (if KnownMode(mode) then 1 else 0)
    ensures !Completes(mode, Threw)
  {
  }

  /** A mode that is neither "register" nor "login": no call, no effect, the handler never completes. */
  lemma UnknownModeDoesNothing(mode: string, data: FormValues, outcome: CallOutcome)
    requires !KnownMode(mode)
    ensures SubmitEffects(mode, data, outcome) == []
    ensures !Completes(mode, outcome)
  {
  }

  /** The paths passed to `router.push`, in order. */
  function Navigations(log: seq<Effect>): (paths: seq<string>)
    ensures |paths| <= |log|
    ensures forall p :: p in paths <==> Navigate(p) in log
  {
    if log == [] then []
    else (if log[0].Navigate? then [log[0].path] else []) + Navigations(log[1..])
  }

  /** The messages passed to `toast.error`, in order. */
  function Toasts(log: seq<Effect>): (messages: seq<string>)
    ensures |messages| <= |log|
    ensures forall m :: m in messages <==> Toast(m) in log
  {
    if log == [] then []
    else (if log[0].Toast? then [log[0].message] else []) + Toasts(log[1..])
  }

  lemma {:induction false} NavigationsAppend(a: seq<Effect>, b: seq<Effect>)
    ensures Navigations(a + b) == Navigations(a) + Navigations(b)
  {
    if a == [] {
      assert a + b == b;
    } else {
      assert (a + b)[0] == a[0];
      assert (a + b)[1..] == a[1..] + b;
      NavigationsAppend(a[1..], b);
    }
  }

  lemma {:induction false} ToastsAppend(a: seq<Effect>, b: seq<Effect>)
    ensures Toasts(a + b) == Toasts(a) + Toasts(b)
  {
    if a == [] {
      assert a + b == b;
    } else {
      assert (a + b)[0] == a[0];
      assert (a + b)[1..] == a[1..] + b;
      ToastsAppend(a[1..], b);
    }
  }

  /** The recorded navigations and toasts of one submission. */
  lemma SubmitEffectsRecords(mode: string, data: FormValues, outcome: CallOutcome)
    ensures Navigations(SubmitEffects(mode, data, outcome)) ==
      (if Completes(mode, outcome) && outcome.res.ok then [SuccessRoute(mode)] else [])
    ensures Toasts(SubmitEffects(mode, data, outcome)) ==
      (if Completes(mode, outcome) && outcome.res.error then [FailureToast(mode)] else [])
  {
    var call := OutboundCall(mode, data);
    assert Navigations(call) == [] && Toasts(call) == [];
    if Completes(mode, outcome) {
      var res := outcome.res;
      var nav: seq<Effect> := if res.ok then [Navigate(SuccessRoute(mode))] else [];
      var toast: seq<Effect> := if res.error then [Toast(FailureToast(mode))] else [];
      assert Reaction(mode, res) == nav + toast;
      NavigationsAppend(nav, toast);
      ToastsAppend(nav, toast);
      NavigationsAppend(call, nav + toast);
      ToastsAppend(call, nav + toast);
    } else {
      assert SubmitEffects(mode, data, outcome) == call;
    }
  }

  /** What one submission adds to the recorded navigations and toasts of a form with history `log`. */
  lemma SubmitRecords(log: seq<Effect>, mode: string, data: FormValues, outcome: CallOutcome)
    ensures Navigations(log + SubmitEffects(mode, data, outcome)) ==
      Navigations(log) + (if Completes(mode, outcome) && outcome.res.ok then [SuccessRoute(mode)] else [])
    ensures Toasts(log + SubmitEffects(mode, data, outcome)) ==
      Toasts(log) + (if Completes(mode, outcome) && outcome.res.error then [FailureToast(mode)] else [])
  {
    NavigationsAppend(log, SubmitEffects(mode, data, outcome));
    ToastsAppend(log, SubmitEffects(mode, data, outcome));
    SubmitEffectsRecords(mode, data, outcome);
  }

  /** A registration answered by fetch adds no toast to any history. */
  lemma RegisterToastsUnchanged(log: seq<Effect>, data: FormValues, ok: bool)
    ensures Toasts(log + SubmitEffects(RegisterMode, data, Returned(FetchResponse(ok)))) == Toasts(log)
  {
    SubmitRecords(log, RegisterMode, data, Returned(FetchResponse(ok)));
  }

  /** Which field an input event writes. */
  datatype Field = Username | Email | Password

  function WithField(v: FormValues, field: Field, text: string): FormValues
  {
    match field
    case Username => v.(username := Some(text))
    case Email => v.(email := text)
    case Password => v.(password := text)
  }

  /** The state of one rendered form: its `type` property, the loading flag,
      the field values and the log of effects so far. */
  class AuthForm {
    const mode: string
    var loading: bool
    var values: FormValues
    var effects: seq<Effect>

    /** The username value is present exactly when its input is rendered, and
        every effect recorded is one this mode can produce. */
    ghost predicate Valid()
      reads this
    {
      (values.username.Some? <==> ShowsUsername(mode)) &&
      forall i :: 0 <= i < |effects| ==> Permitted(mode, effects[i])
    }

    constructor (mode: string)
      ensures Valid()
      ensures this.mode == mode && !loading && values == DefaultValues(mode) && effects == []
    {
      this.mode := mode;
      loading := false;
      values := DefaultValues(mode);
      effects := [];
    }

    /** The user types `text` into `field`; an input that is not rendered receives nothing. */
    method Input(field: Field, text: string)
      requires Valid()
      modifies this
      ensures Valid()
      ensures loading == old(loading) && effects == old(effects)
      ensures values == if field == Username && !ShowsUsername(mode) then old(values)
                        else WithField(old(values), field, text)
    {
      if field != Username || ShowsUsername(mode) {
        values := WithField(values, field, text);
      }
    }

    /** The submit handler with the submitted `data`; `outcome` is how its awaited call ends.
        `rejected` says whether the returned promise rejects. */
    method OnSubmit(data: FormValues, outcome: CallOutcome) returns (rejected: bool)
      requires Valid()
      modifies this
      ensures Valid()
      ensures effects == old(effects) + SubmitEffects(mode, data, outcome)
      ensures loading <==> !Completes(mode, outcome)
      ensures values == if Completes(mode, outcome) then DefaultValues(mode) else old(values)
      ensures rejected <==> KnownMode(mode) && outcome.Threw?
    {
      SubmitEffectsPermitted(mode, data, outcome);
      rejected := false;
      loading := true;
      if mode == RegisterMode {
        effects := effects + [Fetch(RegisterEndpoint, "POST", "application/json", data)];
        if outcome.Threw? {
          rejected := true;
          return;
        }
        var res := outcome.res;
        if res.ok {
          effects := effects + [Navigate(HomeRoute)];
        }
        if res.error {
          effects := effects + [Toast(RegisterFailed)];
        }
        values := DefaultValues(mode);
        loading := false;
      }
      if mode == LoginMode {
        effects := effects + [SignIn("credentials", data, false)];
        if outcome.Threw? {
          rejected := true;
          return;
        }
        var res := outcome.res;
        if res.ok {
          effects := effects + [Navigate(ChatsRoute)];
        }
        if res.error {
          effects := effects + [Toast(LoginFailed)];
        }
        values := DefaultValues(mode);
        loading := false;
      }
    }

    /** The form's submit event: validate the current values, and call the
        handler with them only when no field reports an error. */
    method HandleSubmit(outcome: CallOutcome) returns (errors: FormErrors, rejected: bool)
      requires Valid()
      modifies this
      ensures Valid()
      ensures errors == Validate(mode, old(values))
      ensures !NoErrors(errors) ==>
        !rejected && loading == old(loading) && values == old(values) && effects == old(effects)
      ensures NoErrors(errors) ==>
        && effects == old(effects) + SubmitEffects(mode, old(values), outcome)
        && (loading <==> !Completes(mode, outcome))
        && values == (if Completes(mode, outcome) then DefaultValues(mode) else old(values))
        && (rejected <==> KnownMode(mode) && outcome.Threw?)
      ensures NoErrors(errors) && mode == RegisterMode ==>
        old(values).username.Some? && |old(values).username.value| >= 3
      ensures mode != RegisterMode ==> old(values).username == None
    {
      errors := Validate(mode, values);
      rejected := false;
      if NoErrors(errors) {
        rejected := OnSubmit(values, outcome);
      }
    }
  }
}
