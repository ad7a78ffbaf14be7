/** The browser page (app/page.tsx) as a state machine: each handler of the
    page (loading the saved credentials, the button click, and the message
    and error handlers of the event subscription) is one atomic step from a
    `Home` state to the next.

    The page keeps its event subscription in one mutable reference. Here
    every subscription the page ever opened is kept in `sources`, oldest
    first, with the credentials its handlers captured and whether it is
    still open; the reference is the last one. */
module Client {
  import opened Types
  import opened Text

  const FillAllFields := "Please fill in all credential fields."
  const InitFailed := "Failed to initiate attendance marking. Please try again later."
  const ConnectionLost := "Connection to server streaming service lost. Please try again."
  const MalformedPrefix := "Error processing message: "
  const MalformedFallback := "Malformed data received."

  /** What the saved-credentials entry holds, as far as loading it can tell:
      an empty string, text that does not parse as an object, or an object
      read as a credential bundle (a missing field reads as ""). */
  datatype Saved = EmptyText | Unparseable | Bundle(creds: Credentials)

  /** One subscription: the credentials its handlers captured when the run
      started, and whether it is still open. */
  datatype Source = Source(run: Credentials, open: bool)

  /** The page state: whether a run is in progress, the event log, the
      saved-credentials entry, the two credential flags, and the
      subscriptions. */
  datatype Home = Home(processing: bool, log: seq<StatusMessage>, storage: Option<Saved>,
                       hasStored: bool, loaded: Option<Credentials>, sources: seq<Source>)
  {
    /** The current subscription exists and is open. */
    predicate SubscriptionOpen()
    {
      |sources| > 0 && sources[|sources| - 1].open
    }
  }

  /** The three form fields, read as strings. */
  datatype Form = Form(email: string, password: string, gmailPassword: string)

  /** What a subscription can deliver: a message whose data parsed as a
      status event, a message whose data did not, or a transport error. */
  datatype Payload = Parsed(event: StatusMessage) | Malformed(raw: string)
  datatype Incoming = Message(payload: Payload) | TransportError

  /** The page before any effect has run, over whatever storage holds. */
  function Initial(storage: Option<Saved>): Home
  {
    Home(false, [], storage, false, None, [])
  }

  /** The states the page can be in: the two credential flags move
      together, loaded credentials are complete and are what storage holds,
      no subscription but the current one is open, a run is in progress
      exactly while the current subscription is open, and an open
      subscription runs with complete credentials. */
  predicate Coherent(h: Home)
  {
    && (h.hasStored <==> h.loaded.Some?)
    && (h.loaded.Some? ==> Complete(h.loaded.value) && h.storage == Some(Bundle(h.loaded.value)))
    && (forall i :: 0 <= i < |h.sources| - 1 ==> !h.sources[i].open)
    && (h.processing <==> h.SubscriptionOpen())
    && (h.SubscriptionOpen() ==> Complete(h.sources[|h.sources| - 1].run))
  }

  /** At most one subscription is open. */
  predicate AtMostOneOpen(sources: seq<Source>)
  {
    forall i, j :: 0 <= i < j < |sources| && sources[i].open ==> !sources[j].open
  }

  lemma InitialCoherent(storage: Option<Saved>)
    ensures Coherent(Initial(storage))
  {
  }

  /** In every coherent state at most one subscription is open. */
  lemma CoherentAtMostOneOpen(h: Home)
    requires Coherent(h)
    ensures AtMostOneOpen(h.sources)
  {
  }

  /** Closing the current subscription, if there is one; closing a closed
      one changes nothing. */
  function CloseCurrent(sources: seq<Source>): (r: seq<Source>)
    ensures |r| == |sources|
    ensures forall i :: 0 <= i < |sources| - 1 ==> r[i] == sources[i]
    ensures |r| > 0 ==> !r[|r| - 1].open && r[|r| - 1].run == sources[|r| - 1].run
  {
    if |sources| == 0 then sources
    else sources[..|sources| - 1] + [sources[|sources| - 1].(open := false)]
  }

  /** The effect that runs once the page is mounted: a saved bundle is taken
      only if all three fields are non-empty; an incomplete or unreadable
      entry is removed; an absent or empty entry is left alone. */
  function LoadStored(h: Home): (t: Home)
    ensures t.processing == h.processing && t.log == h.log && t.sources == h.sources
    ensures h.storage.None? || h.storage == Some(EmptyText) ==> t == h
    ensures t.loaded != h.loaded && t.loaded.Some? ==>
              Complete(t.loaded.value) && h.storage == Some(Bundle(t.loaded.value)) && t.storage == h.storage
    ensures t.storage != h.storage ==> t.storage.None? && !t.hasStored && t.loaded.None?
    ensures Coherent(h) ==> Coherent(t)
  {
    match h.storage
    case None => h
    case Some(EmptyText) => h
    case Some(Unparseable) => h.(storage := None, hasStored := false, loaded := None)
    case Some(Bundle(c)) =>
      if Complete(c) then h.(loaded := Some(c), hasStored := true)
      else h.(storage := None, hasStored := false, loaded := None)
  }

  /** Loading on a freshly mounted page: the credentials are loaded exactly
      when storage holds a complete bundle; otherwise none are loaded, and
      any entry but an absent or empty one is removed. */
  lemma LoadFromInitial(storage: Option<Saved>)
    ensures var t := LoadStored(Initial(storage));
      && (t.hasStored <==> storage.Some? && storage.value.Bundle? && Complete(storage.value.creds))
      && (t.hasStored ==> t.loaded == Some(storage.value.creds) && t.storage == storage)
      && (!t.hasStored ==>
            t.loaded.None? && t.storage == (if storage.None? || storage == Some(EmptyText) then storage else None))
      && Coherent(t)
  {
  }

  /** `handleCredentialsError`: remove the saved entry, forget the loaded
      credentials and stop processing. */
  function ClearCredentials(h: Home): (t: Home)
    ensures t.storage.None? && !t.hasStored && t.loaded.None? && !t.processing
    ensures t.log == h.log && t.sources == h.sources
  {
    h.(storage := None, hasStored := false, loaded := None, processing := false)
  }

  /** Starting a run with credentials `c`: processing, an empty log, the
      current subscription closed, and a new one opened with `c`. If opening
      it throws, the log holds one `app_error` entry and the credentials are
      cleared. */
  function Start(h: Home, c: Credentials, openFails: bool): (t: Home)
    ensures |t.sources| == |h.sources| + (if openFails then 0 else 1)
    ensures forall i :: 0 <= i < |h.sources| - 1 ==> t.sources[i] == h.sources[i]
    ensures |h.sources| > 0 ==> !t.sources[|h.sources| - 1].open
    ensures !openFails ==> && t.processing && t.log == [] && t.storage == h.storage
                           && |t.sources| == |h.sources| + 1
                           && t.sources[|h.sources|] == Source(c, true)
                           && t.hasStored == h.hasStored && t.loaded == h.loaded
    ensures openFails ==> && !t.processing && t.log == [StatusMessage(AppError, InitFailed)]
                          && |t.sources| == |h.sources| && !t.SubscriptionOpen()
                          && t.storage.None? && !t.hasStored && t.loaded.None?
  {
    var closed := h.(processing := true, log := [], sources := CloseCurrent(h.sources));
    if openFails then ClearCredentials(closed.(log := [StatusMessage(AppError, InitFailed)]))
    else closed.(sources := closed.sources + [Source(c, true)])
  }

  /** The credentials the form gives. */
  function FormCredentials(f: Form): Credentials
  {
    Credentials(f.email, f.password, f.gmailPassword)
  }

  /** The button: stored credentials win over the form; without them, a
      form with an empty field only sets the log to one `info` entry; with
      neither stored credentials nor a form nothing changes (a toast only).
      `form` is `None` when the form is not rendered; `openFails` says
      whether creating the subscription throws. */
  function Click(h: Home, form: Option<Form>, openFails: bool): (t: Home)
    ensures h.hasStored && h.loaded.Some? && !openFails ==>
              t.SubscriptionOpen() && t.sources[|t.sources| - 1] == Source(h.loaded.value, true)
    ensures !(h.hasStored && h.loaded.Some?) && form.Some? && !Complete(FormCredentials(form.value)) ==>
              t == h.(log := [StatusMessage(Info, FillAllFields)])
    ensures !(h.hasStored && h.loaded.Some?) && form.Some? && Complete(FormCredentials(form.value)) && !openFails ==>
              t.SubscriptionOpen() && t.sources[|t.sources| - 1] == Source(FormCredentials(form.value), true)
    ensures !(h.hasStored && h.loaded.Some?) && form.None? ==> t == h
    ensures Coherent(h) ==> Coherent(t)
  {
    if h.hasStored && h.loaded.Some? then Start(h, h.loaded.value, openFails)
    else if form.Some? then
      var c := FormCredentials(form.value);
      if !Complete(c) then h.(log := [StatusMessage(Info, FillAllFields)])
      else Start(h, c, openFails)
    else h
  }

  /** A successful start from a coherent state leaves exactly one open
      subscription, the new one, and every earlier one closed. */
  lemma StartClosesPrevious(h: Home, form: Option<Form>)
    requires Coherent(h)
    requires (h.hasStored && h.loaded.Some?) || (form.Some? && Complete(FormCredentials(form.value)))
    ensures var t := Click(h, form, false);
      && |t.sources| == |h.sources| + 1
      && t.processing && t.log == [] && t.SubscriptionOpen()
      && (forall i :: 0 <= i < |h.sources| ==> !t.sources[i].open)
      && AtMostOneOpen(t.sources)
  {
    var t := Click(h, form, false);
    assert Coherent(t);
    CoherentAtMostOneOpen(t);
  }

  /** The message handler for a parsed event: the event goes at the end of
      the log; the tag `app_error` closes the subscription and clears the
      credentials; `app_success` closes the subscription, stops processing
      and saves exactly the credentials `run` the run started with; any other
      tag changes nothing else. The page compares the tag string; testing the
      constructor is the same test on a `Tagged` status (`TagDecides`). */
  function OnEvent(h: Home, run: Credentials, m: StatusMessage): (t: Home)
    ensures t.log == h.log + [m]
    ensures m.status == AppError ==>
              && !t.processing && t.storage.None? && !t.hasStored && t.loaded.None?
              && t.sources == CloseCurrent(h.sources)
    ensures m.status == AppSuccess ==>
              && !t.processing && t.storage == Some(Bundle(run)) && t.hasStored && t.loaded == Some(run)
              && t.sources == CloseCurrent(h.sources)
    ensures m.status != AppError && m.status != AppSuccess ==> t == h.(log := h.log + [m])
  {
    var h1 := h.(log := h.log + [m]);
    if m.status == AppError then ClearCredentials(h1.(sources := CloseCurrent(h1.sources)))
    else if m.status == AppSuccess then
      h1.(sources := CloseCurrent(h1.sources), processing := false,
          storage := Some(Bundle(run)), hasStored := true, loaded := Some(run))
    else h1
  }

  /** The text of the synthetic entry for data that did not parse. */
  function MalformedMessage(raw: string): (msg: string)
    ensures StartsWith(msg, MalformedPrefix)
    ensures raw != "" ==> msg[|MalformedPrefix|..] == raw
    ensures raw == "" ==> msg[|MalformedPrefix|..] == MalformedFallback
  {
    MalformedPrefix + (if raw == "" then MalformedFallback else raw)
  }

  /** The `catch` of the message handler and the error handler: one
      synthetic `app_error` entry at the end of the log, the subscription
      closed, the credentials cleared. */
  function Fail(h: Home, message: string): (t: Home)
    ensures t.log == h.log + [StatusMessage(AppError, message)]
    ensures !t.processing && t.storage.None? && !t.hasStored && t.loaded.None?
    ensures t.sources == CloseCurrent(h.sources) && !t.SubscriptionOpen()
  {
    ClearCredentials(h.(log := h.log + [StatusMessage(AppError, message)], sources := CloseCurrent(h.sources)))
  }

  /** Something arrives on subscription number `from`. A closed subscription
      delivers nothing; an open one runs the page's handlers, which act on
      the current subscription. */
  function Deliver(h: Home, from: nat, e: Incoming): (t: Home)
    ensures from >= |h.sources| || !h.sources[from].open ==> t == h
    ensures Coherent(h) ==> Coherent(t)
    ensures Coherent(h) && from < |h.sources| && h.sources[from].open ==>
              from == |h.sources| - 1 && |t.log| == |h.log| + 1 && t.log[..|h.log|] == h.log
  {
    if from >= |h.sources| || !h.sources[from].open then h
    else match e
      case TransportError => Fail(h, ConnectionLost)
      case Message(Malformed(raw)) => Fail(h, MalformedMessage(raw))
      case Message(Parsed(m)) => OnEvent(h, h.sources[from].run, m)
  }

  /** A run of deliveries on one subscription, in arrival order. */
  function DeliverAll(h: Home, from: nat, es: seq<Incoming>): Home
    decreases |es|
  {
    if |es| == 0 then h else DeliverAll(Deliver(h, from, es[0]), from, es[1..])
  }

  /** True of a delivery that only adds to the log: a parsed event whose tag
      is neither `app_error` nor `app_success`. */
  predicate Ongoing(e: Incoming)
  {
    e.Message? && e.payload.Parsed? && NonTerminal(e.payload.event)
  }

  /** The deliveries of a sequence of parsed events. */
  function AsDeliveries(ms: seq<StatusMessage>): (es: seq<Incoming>)
    ensures |es| == |ms|
    ensures forall i :: 0 <= i < |ms| ==> es[i] == Message(Parsed(ms[i]))
  {
    if |ms| == 0 then [] else [Message(Parsed(ms[0]))] + AsDeliveries(ms[1..])
  }

  /** Neither `app_error` nor `app_success`. */
  predicate NonTerminal(m: StatusMessage)
  {
    m.status != AppError && m.status != AppSuccess
  }

  /** An event is non-terminal exactly when its tag string is neither of
      the two the message handler compares against. */
  lemma NonTerminalByTag(m: StatusMessage)
    ensures NonTerminal(m) <==> Tag(m.status) != "app_error" && Tag(m.status) != "app_success"
  {
    TagDecides(m.status);
  }

  /** One non-terminal event on an open subscription only adds to the log. */
  lemma DeliverOngoing(h: Home, from: nat, m: StatusMessage)
    requires from < |h.sources| && h.sources[from].open && NonTerminal(m)
    ensures Deliver(h, from, Message(Parsed(m))) == h.(log := h.log + [m])
  {
    assert OnEvent(h, h.sources[from].run, m) == h.(log := h.log + [m]);
  }

  /** Delivering a run of events that starts with a non-terminal one: the
      first only adds to the log, then the rest are delivered. */
  lemma DeliverAllOngoingStep(h: Home, from: nat, ms: seq<StatusMessage>)
    requires |ms| > 0 && from < |h.sources| && h.sources[from].open && NonTerminal(ms[0])
    ensures DeliverAll(h, from, AsDeliveries(ms))
         == DeliverAll(h.(log := h.log + [ms[0]]), from, AsDeliveries(ms[1..]))
  {
    DeliverOngoing(h, from, ms[0]);
    assert AsDeliveries(ms)[1..] == AsDeliveries(ms[1..]);
  }

  /** The rest of a run of non-terminal events is non-terminal too. */
  lemma NonTerminalTail(ms: seq<StatusMessage>)
    requires |ms| > 0 && forall i :: 0 <= i < |ms| ==> NonTerminal(ms[i])
    ensures forall i :: 0 <= i < |ms[1..]| ==> NonTerminal(ms[1..][i])
    ensures forall log: seq<StatusMessage> :: log + [ms[0]] + ms[1..] == log + ms
  {
    assert forall i :: 0 <= i < |ms[1..]| ==> ms[1..][i] == ms[i + 1];
    assert [ms[0]] + ms[1..] == ms;
  }

  /** Events that are neither `app_error` nor `app_success` go to the end
      of the log in arrival order and change nothing else: processing,
      storage and subscriptions are untouched. */
  lemma {:induction false} OngoingEventsAppend(h: Home, from: nat, ms: seq<StatusMessage>)
    requires from < |h.sources| && h.sources[from].open
    requires forall i :: 0 <= i < |ms| ==> NonTerminal(ms[i])
    ensures DeliverAll(h, from, AsDeliveries(ms)) == h.(log := h.log + ms)
    decreases |ms|
  {
    if |ms| == 0 {
      assert h.log + ms == h.log;
    } else {
      DeliverAllOngoingStep(h, from, ms);
      NonTerminalTail(ms);
      OngoingEventsAppend(h.(log := h.log + [ms[0]]), from, ms[1..]);
    }
  }

  /** Once a subscription is closed, nothing it might still deliver changes
      the page. */
  lemma {:induction false} ClosedDeliversNothing(h: Home, from: nat, es: seq<Incoming>)
    requires from >= |h.sources| || !h.sources[from].open
    ensures DeliverAll(h, from, es) == h
    decreases |es|
  {
    if |es| > 0 {
      ClosedDeliversNothing(h, from, es[1..]);
    }
  }

  /** A terminal delivery on the current subscription (an `app_error`, an
      `app_success`, malformed data or a transport error) closes it, so
      whatever follows on it, a `cookies_update` included, is never handled. */
  lemma TerminalEndsRun(h: Home, e: Incoming, rest: seq<Incoming>)
    requires Coherent(h) && h.SubscriptionOpen()
    requires !Ongoing(e)
    ensures var t := Deliver(h, |h.sources| - 1, e);
      && !t.SubscriptionOpen() && !t.processing
      && DeliverAll(h, |h.sources| - 1, [e] + rest) == t
  {
    var from := |h.sources| - 1;
    var t := Deliver(h, from, e);
    assert ([e] + rest)[1..] == rest;
    ClosedDeliversNothing(t, from, rest);
  }

  /** `app_success` followed by `cookies_update` on one run: the saved
      bundle is the one the run started with and the update never reaches
      the log. */
  lemma SuccessThenCookiesUpdate(h: Home, success: StatusMessage, update: StatusMessage)
    requires Coherent(h) && h.SubscriptionOpen()
    requires success.status == AppSuccess && update.status == CookiesUpdate
    ensures var t := DeliverAll(h, |h.sources| - 1, [Message(Parsed(success)), Message(Parsed(update))]);
      && t.storage == Some(Bundle(h.sources[|h.sources| - 1].run))
      && t.log == h.log + [success]
  {
    TerminalEndsRun(h, Message(Parsed(success)), [Message(Parsed(update))]);
    assert [Message(Parsed(success))] + [Message(Parsed(update))]
        == [Message(Parsed(success)), Message(Parsed(update))];
  }

  /** Every failure delivered on the current subscription (an `app_error`
      event, malformed data or a transport error) leaves storage empty. */
  lemma FailureClearsStorage(h: Home, e: Incoming)
    requires Coherent(h) && h.SubscriptionOpen()
    requires e.TransportError? || e.payload.Malformed? || e.payload.event.status == AppError
    ensures var t := Deliver(h, |h.sources| - 1, e);
      && t.storage.None? && !t.hasStored && t.loaded.None? && !t.processing
      && t.log[|t.log| - 1].status == AppError
  {
  }
}
