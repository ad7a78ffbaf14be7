/** The records the browser and the relay exchange: a credential bundle and
    one status event of the upstream's progress stream. */
module Types {

  datatype Option<+T> = None | Some(value: T)

  /** The three credentials the form collects and the browser persists. */
  datatype Credentials = Credentials(quickchexEmail: string, quickchexPassword: string, googlePassword: string)

  /** All three fields are truthy, i.e. non-empty strings. */
  predicate Complete(c: Credentials)
  {
    c.quickchexEmail != "" && c.quickchexPassword != "" && c.googlePassword != ""
  }

  /** The status tag of an event. The declared union names six tags; the
      progress bar also reacts to `cookies_update`, and a parsed payload may
      carry any string at run time, which `Unknown` keeps. */
  datatype Status =
    | Processing
    | StepSuccess
    | AppSuccess
    | StepError
    | AppError
    | Info
    | CookiesUpdate
    | Unknown(tag: string)

  /** The wire spelling of a tag. */
  function Tag(st: Status): string
  {
    match st
    case Processing => "processing"
    case StepSuccess => "step_success"
    case AppSuccess => "app_success"
    case StepError => "step_error"
    case AppError => "app_error"
    case Info => "info"
    case CookiesUpdate => "cookies_update"
    case Unknown(t) => t
  }

  predicate IsKnownTag(t: string)
  {
    t in ["processing", "step_success", "app_success", "step_error", "app_error", "info", "cookies_update"]
  }

  /** A status is canonical when an `Unknown` does not hide a known tag. */
  predicate Canonical(st: Status)
  {
    st.Unknown? ==> !IsKnownTag(st.tag)
  }

  /** Reading a tag off the wire: every string reads as some canonical status
      that spells it back. */
  function ParseTag(t: string): (st: Status)
    ensures Tag(st) == t
    ensures Canonical(st)
  {
    if t == "processing" then Processing
    else if t == "step_success" then StepSuccess
    else if t == "app_success" then AppSuccess
    else if t == "step_error" then StepError
    else if t == "app_error" then AppError
    else if t == "info" then Info
    else if t == "cookies_update" then CookiesUpdate
    else Unknown(t)
  }

  /** Tags and canonical statuses are in one-to-one correspondence. */
  lemma ParseTagOfTag(st: Status)
    requires Canonical(st)
    ensures ParseTag(Tag(st)) == st
  {
    if st.Unknown? {
      assert !IsKnownTag(st.tag);
    }
  }

  /** A status as it arrives in an event: canonical, so that its constructor
      and its wire tag agree. The page and the bar compare the tag string;
      over `Tagged` comparing constructors is the same thing. */
  type Tagged = st: Status | Canonical(st) witness Processing

  /** For a canonical status, the tags the page and the bar single out are
      exactly their constructors. */
  lemma TagDecides(st: Tagged)
    ensures Tag(st) == "app_error" <==> st == AppError
    ensures Tag(st) == "app_success" <==> st == AppSuccess
    ensures Tag(st) == "cookies_update" <==> st == CookiesUpdate
    ensures Tag(st) == "step_success" <==> st == StepSuccess
    ensures Tag(st) == "step_error" <==> st == StepError
    ensures Tag(st) == "info" <==> st == Info
  {
  }

  /** One entry of the event log. A missing `message` reads as "", which
      every consumer treats exactly like an absent one. */
  datatype StatusMessage = StatusMessage(status: Tagged, message: string)
}
