/** The progress bar's summary of the event log
    (app/components/ProgressBar.tsx, the memoised `progressData`): a
    percentage, a colour, whether the run is complete, and the latest
    message and status. The percentage `(n / 8) * 100` is exact over
    `real`. */
module Progress {
  import opened Types
  import Client

  const Red := "#f87171"
  const DarkRed := "#ef4444"
  const Amber := "#fbbf24"
  const Blue := "#60a5fa"
  const LightGreen := "#4ade80"
  const Green := "#22c55e"

  const CookiesUpdated := "Cookies updated successfully"
  const ProcessingText := "Processing..."

  datatype ProgressData = ProgressData(progress: real, color: string, isComplete: bool,
                                       latestMessage: Option<string>, latestStatus: Option<Status>)

  function Min(a: real, b: real): real { if a <= b then a else b }
  function Max(a: real, b: real): real { if a >= b then a else b }

  /** The share of the bar that the number of events alone earns:
      `(n / 8) * 100` held within 10 and 95. */
  function BaseProgress(n: nat): (p: real)
    ensures 10.0 <= p <= 95.0
  {
    Min(Max((n as real / 8.0) * 100.0, 10.0), 95.0)
  }

  /** One to seven events earn 12.5 points each; eight or more earn the
      cap of 95; the share never falls as events arrive. */
  lemma BaseProgressSteps(n: nat, m: nat)
    ensures 1 <= n <= 7 ==> BaseProgress(n) == 12.5 * n as real
    ensures n >= 8 ==> BaseProgress(n) == 95.0
    ensures n == 0 ==> BaseProgress(n) == 10.0
    ensures n <= m ==> BaseProgress(n) <= BaseProgress(m)
  {
  }

  /** The text shown for the latest event: its message, or a fallback by
      tag when the message is empty. */
  function LatestText(m: StatusMessage): (text: string)
    ensures text != ""
    ensures m.message != "" ==> text == m.message
  {
    if m.message != "" then m.message
    else if m.status == CookiesUpdate then CookiesUpdated
    else ProcessingText
  }

  /** The bar for a log. */
  function Compute(log: seq<StatusMessage>): (d: ProgressData)
    ensures 0.0 <= d.progress <= 100.0
    ensures d.isComplete <==> |log| > 0 && (log[|log| - 1].status == AppError || log[|log| - 1].status == CookiesUpdate)
    ensures d.isComplete ==> d.progress == 100.0
    ensures |log| > 0 ==> d.latestStatus == Some(log[|log| - 1].status) && d.latestMessage.Some?
    ensures |log| > 0 ==> BaseProgress(|log|) <= d.progress
  {
    if |log| == 0 then ProgressData(0.0, Red, false, None, None)
    else
      var latest := log[|log| - 1];
      var base := BaseProgress(|log|);
      var text := Some(LatestText(latest));
      var st := Some(latest.status);
      match latest.status
      case StepError => ProgressData(base, Red, false, text, st)
      case AppError => ProgressData(100.0, DarkRed, true, text, st)
      case StepSuccess => ProgressData(base + 5.0, Amber, false, text, st)
      case Info => ProgressData(base, Blue, false, text, st)
      case AppSuccess => ProgressData(95.0, LightGreen, false, text, st)
      case CookiesUpdate => ProgressData(100.0, Green, true, text, st)
      case _ => ProgressData(base, Red, false, text, st)
  }

  /** An empty log: no progress, not complete, nothing to show. */
  lemma EmptyLog()
    ensures Compute([]) == ProgressData(0.0, Red, false, None, None)
  {
  }

  /** The progress for a non-empty log, tag by tag: `app_error` and
      `cookies_update` fill the bar; `app_success` stops at 95;
      `step_success` adds 5 to the base, landing within 15 and 100; every
      other tag shows the base. */
  lemma ProgressByTag(log: seq<StatusMessage>)
    requires |log| > 0
    ensures var st := log[|log| - 1].status; var d := Compute(log);
      && (st == AppError || st == CookiesUpdate ==> d.progress == 100.0 && d.isComplete)
      && (st == AppSuccess ==> d.progress == 95.0 && !d.isComplete)
      && (st == StepSuccess ==> d.progress == BaseProgress(|log|) + 5.0 && 15.0 <= d.progress <= 100.0 && !d.isComplete)
      && (st != AppError && st != CookiesUpdate && st != AppSuccess && st != StepSuccess ==>
            d.progress == BaseProgress(|log|) && !d.isComplete)
  {
  }

  /** The latest message is the event's own message if it has one, else
      "Cookies updated successfully" for `cookies_update`, else
      "Processing...". */
  lemma LatestMessageFallback(log: seq<StatusMessage>)
    requires |log| > 0
    ensures var m := log[|log| - 1]; var d := Compute(log);
      && (m.message != "" ==> d.latestMessage == Some(m.message))
      && (m.message == "" && m.status == CookiesUpdate ==> d.latestMessage == Some(CookiesUpdated))
      && (m.message == "" && m.status != CookiesUpdate ==> d.latestMessage == Some(ProcessingText))
  {
  }

  /** Only the number of events and the latest one matter. */
  lemma DependsOnCountAndLatest(a: seq<StatusMessage>, b: seq<StatusMessage>)
    requires |a| == |b| && |a| > 0 && a[|a| - 1] == b[|b| - 1]
    ensures Compute(a) == Compute(b)
  {
  }

  /** `Compute` over the log the page holds after it handles a failure on
      its current subscription (an `app_error` event, malformed data or a
      transport error) is complete at 100. */
  lemma BarFollowsPage(h: Client.Home, e: Client.Incoming)
    requires Client.Coherent(h) && h.SubscriptionOpen()
    requires e.TransportError? || e.payload.Malformed? || e.payload.event.status == AppError
    ensures Compute(Client.Deliver(h, |h.sources| - 1, e).log).isComplete
    ensures Compute(Client.Deliver(h, |h.sources| - 1, e).log).progress == 100.0
  {
    Client.FailureClearsStorage(h, e);
  }

  /** `Compute` over the log the page holds after it handles `app_success`
      is at 95 and not complete. */
  lemma BarAfterSuccess(h: Client.Home, m: StatusMessage)
    requires Client.Coherent(h) && h.SubscriptionOpen() && m.status == AppSuccess
    ensures Compute(Client.Deliver(h, |h.sources| - 1, Client.Message(Client.Parsed(m))).log).progress == 95.0
    ensures !Compute(Client.Deliver(h, |h.sources| - 1, Client.Message(Client.Parsed(m))).log).isComplete
  {
  }

  /** `Compute` over the log the page holds right after a click starts a
      run: an empty summary at 0 when the subscription opened, a complete
      bar when opening it threw. */
  lemma ComputeAfterStart(h: Client.Home, c: Credentials)
    ensures Compute(Client.Start(h, c, false).log) == ProgressData(0.0, Red, false, None, None)
    ensures Compute(Client.Start(h, c, true).log).isComplete
    ensures Compute(Client.Start(h, c, true).log).progress == 100.0
    ensures Compute(Client.Start(h, c, true).log).latestMessage == Some(Client.InitFailed)
  {
  }
}
