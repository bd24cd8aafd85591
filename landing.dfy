/** The waitlist form of the landing page component: its state, the handlers that
    change it, and the three-step flow (email entry, profile entry, confirmation)
    those handlers drive. */
module Landing {
  import opened Values
  import opened EmailRule

  /** The component's `step`: 1, 2 and 3 in the source. */
  datatype Step = EmailEntry | ProfileEntry | Confirmation

  /** The six keys of `formData`. */
  datatype Field = Name | Company | Role | UseCase | ReferralSource | Social

  /** The JSON key under which a profile field is stored and sent. */
  function Key(f: Field): string {
    match f
    case Name => "name"
    case Company => "company"
    case Role => "role"
    case UseCase => "useCase"
    case ReferralSource => "referralSource"
    case Social => "social"
  }

  const ProfileKeys: set<string> := {"name", "company", "role", "useCase", "referralSource", "social"}

  /** `formData`: the optional profile collected at step 2. */
  datatype Profile = Profile(name: string, company: string, role: string,
                             useCase: string, referralSource: string, social: string)
  {
    function Get(f: Field): string {
      match f
      case Name => name
      case Company => company
      case Role => role
      case UseCase => useCase
      case ReferralSource => referralSource
      case Social => social
    }

    /** `{ ...prev, [field]: value }`: the one field takes the new value and the
        other five keep theirs. */
    function With(f: Field, v: string): (p: Profile)
      ensures p.Get(f) == v
      ensures forall g :: g != f ==> p.Get(g) == Get(g)
    {
      match f
      case Name => this.(name := v)
      case Company => this.(company := v)
      case Role => this.(role := v)
      case UseCase => this.(useCase := v)
      case ReferralSource => this.(referralSource := v)
      case Social => this.(social := v)
    }

    /** The profile as the JSON object that is spread into the request body. */
    function ToJson(): (m: map<string, Json>)
      ensures m.Keys == ProfileKeys
      ensures forall f :: m[Key(f)] == JStr(Get(f))
    {
      map["name" := JStr(name), "company" := JStr(company), "role" := JStr(role),
          "useCase" := JStr(useCase), "referralSource" := JStr(referralSource), "social" := JStr(social)]
    }
  }

  const EmptyProfile := Profile("", "", "", "", "", "")

  const InvalidEmailMessage := "Please enter a valid email address"
  const SubmitFailedMessage := "Something went wrong. Please try again."

  /** A snapshot of the component's form state. `waitlistPosition` starts as `null`. */
  datatype FormState = FormState(step: Step, email: string, emailError: string,
                                 formData: Profile, waitlistPosition: Json)

  /** The state after mounting: every `useState` initial value. */
  const Initial := FormState(EmailEntry, "", "", EmptyProfile, JNull)

  /** What `fetch` gives back: a response (its `ok` flag and the `position`
      property of its JSON body, `None` when absent), or a rejection (a network
      failure, or a body that is not JSON). */
  datatype Reply = Responded(ok: bool, position: Option<Json>) | Rejected

  /** The request body of `handleFinalSubmit`: `{ email, ...(skip ? {} : formData), timestamp }`.
      It always carries the email and the timestamp, and carries the six profile
      fields exactly when the profile is not skipped. */
  function Payload(email: string, formData: Profile, skip: bool, now: string): (p: map<string, Json>)
    ensures p.Keys == {"email", "timestamp"} + (if skip then {} else ProfileKeys)
    ensures p["email"] == JStr(email) && p["timestamp"] == JStr(now)
    ensures !skip ==> forall f :: p[Key(f)] == JStr(formData.Get(f))
  {
    map["email" := JStr(email)] + (if skip then map[] else formData.ToJson()) + map["timestamp" := JStr(now)]
  }

  /** Typing into the email input (`setEmail(e.target.value)`). */
  function EmailTyped(s: FormState, value: string): (t: FormState)
    ensures t.email == value
    ensures t.(email := s.email) == s
  {
    s.(email := value)
  }

  /** `handleEmailSubmit`: an invalid email only sets the error message; a valid
      one clears the error and moves to the profile step. Nothing else changes,
      and no request is made. */
  function EmailSubmitted(s: FormState): (t: FormState)
    ensures t.email == s.email && t.formData == s.formData && t.waitlistPosition == s.waitlistPosition
    ensures !ValidateEmail(s.email) ==> t.step == s.step && t.emailError == InvalidEmailMessage
    ensures ValidateEmail(s.email) ==> t.step == ProfileEntry && t.emailError == ""
  {
    if !ValidateEmail(s.email) then s.(emailError := InvalidEmailMessage)
    else s.(emailError := "", step := ProfileEntry)
  }

  /** `handleFinalSubmit` once the reply is known. On an ok reply the position is
      the reply's `position` when truthy and otherwise the client's random
      fallback, and the confirmation step is shown; on a failed or rejected
      request the error is set and the flow returns to email entry, keeping the
      email and the profile. */
  function FinalSubmitted(s: FormState, reply: Reply, fallback: int): (t: FormState)
    ensures t.email == s.email && t.formData == s.formData
    ensures t.step == Confirmation <==> reply.Responded? && reply.ok
    ensures t.step == Confirmation ==>
              t.emailError == s.emailError &&
              (Present(reply.position) ==> t.waitlistPosition == reply.position.value) &&
              (!Present(reply.position) ==> t.waitlistPosition == JNum(fallback))
    ensures t.step != Confirmation ==>
              t.step == EmailEntry && t.emailError == SubmitFailedMessage && t.waitlistPosition == s.waitlistPosition
  {
    if reply.Responded? && reply.ok then
      s.(waitlistPosition := OrElse(reply.position, JNum(fallback)), step := Confirmation)
    else
      s.(emailError := SubmitFailedMessage, step := EmailEntry)
  }

  /** `handleInputChange(field, value)`: only that profile field changes. */
  function InputChanged(s: FormState, f: Field, value: string): (t: FormState)
    ensures t.formData.Get(f) == value
    ensures forall g :: g != f ==> t.formData.Get(g) == s.formData.Get(g)
    ensures t.(formData := s.formData) == s
  {
    s.(formData := s.formData.With(f, value))
  }

  /** "Back to home": back to email entry with the email, the profile and the
      position cleared; the error message is left as it was. */
  function ReturnedHome(s: FormState): (t: FormState)
    ensures t.step == EmailEntry && t.email == "" && t.waitlistPosition == JNull
    ensures forall f :: t.formData.Get(f) == ""
    ensures t.emailError == s.emailError
  {
    s.(step := EmailEntry, email := "", formData := EmptyProfile, waitlistPosition := JNull)
  }

  /** "Get Started": back to email entry; nothing else changes. */
  function Started(s: FormState): (t: FormState)
    ensures t.step == EmailEntry
    ensures t.(step := s.step) == s
  {
    s.(step := EmailEntry)
  }

  /** What every reachable state satisfies: past email entry the email is valid,
      and the confirmation step has a truthy position to show. */
  predicate Consistent(s: FormState) {
    (s.step != EmailEntry ==> ValidateEmail(s.email)) &&
    (s.step == Confirmation ==> Truthy(s.waitlistPosition))
  }

  /** One user action, with what the environment supplies for it. */
  datatype Event =
    | TypeEmail(value: string)
    | SubmitEmail
    | EditField(field: Field, value: string)
    | SubmitFinal(skip: bool, now: string, reply: Reply, fallback: int)
    | BackToHome
    | GetStarted

  /** Whether the control behind an event is on screen: the email form only at
      step 1, the profile inputs and the two submit buttons only at step 2, the
      "Back to home" button only at step 3 with a position shown, and "Get
      Started" always. `Math.floor(Math.random() * 200) + 1` lies in [1, 200]. */
  predicate Enabled(s: FormState, e: Event) {
    match e
    case TypeEmail(_) => s.step == EmailEntry
    case SubmitEmail => s.step == EmailEntry
    case EditField(_, _) => s.step == ProfileEntry
    case SubmitFinal(_, _, _, fallback) => s.step == ProfileEntry && 1 <= fallback <= 200
    case BackToHome => s.step == Confirmation && Truthy(s.waitlistPosition)
    case GetStarted => true
  }

  function Apply(s: FormState, e: Event): FormState {
    match e
    case TypeEmail(v) => EmailTyped(s, v)
    case SubmitEmail => EmailSubmitted(s)
    case EditField(f, v) => InputChanged(s, f, v)
    case SubmitFinal(_, _, reply, fallback) => FinalSubmitted(s, reply, fallback)
    case BackToHome => ReturnedHome(s)
    case GetStarted => Started(s)
  }

  /** Every event of `es` is enabled in the state it is applied to. */
  predicate Allowed(s: FormState, es: seq<Event>)
    decreases |es|
  {
    es == [] || (Enabled(s, es[0]) && Allowed(Apply(s, es[0]), es[1..]))
  }

  function Run(s: FormState, es: seq<Event>): FormState
    decreases |es|
  {
    if es == [] then s else Run(Apply(s, es[0]), es[1..])
  }

  /** Each enabled event keeps the state consistent. */
  lemma ApplyKeepsConsistent(s: FormState, e: Event)
    requires Consistent(s) && Enabled(s, e)
    ensures Consistent(Apply(s, e))
  {
  }

  /** Any run of enabled events keeps the state consistent. */
  lemma {:induction false} RunKeepsConsistent(s: FormState, es: seq<Event>)
    requires Consistent(s) && Allowed(s, es)
    ensures Consistent(Run(s, es))
    decreases |es|
  {
    if es != [] {
      ApplyKeepsConsistent(s, es[0]);
      RunKeepsConsistent(Apply(s, es[0]), es[1..]);
    }
  }

  /** From the initial state, the profile and confirmation steps are only ever
      reached with an email that passes `validateEmail`. */
  lemma ReachedStepsHaveValidEmail(es: seq<Event>)
    requires Allowed(Initial, es)
    ensures Run(Initial, es).step != EmailEntry ==> ValidateEmail(Run(Initial, es).email)
    ensures Run(Initial, es).step == Confirmation ==> Truthy(Run(Initial, es).waitlistPosition)
  {
    RunKeepsConsistent(Initial, es);
  }

  /** The component itself: its form state and one method per handler. */
  class WaitlistForm {
    var step: Step
    var email: string
    var emailError: string
    var formData: Profile
    var waitlistPosition: Json

    function Snapshot(): FormState
      reads this
    {
      FormState(step, email, emailError, formData, waitlistPosition)
    }

    ghost predicate Valid()
      reads this
    {
      Consistent(Snapshot())
    }

    constructor ()
      ensures Snapshot() == Initial && Valid()
    {
      step := EmailEntry;
      waitlistPosition := JNull;
      email := "";
      emailError := "";
      formData := EmptyProfile;
    }

    /** The email input's change handler; the input exists only at step 1. */
    method SetEmail(value: string)
      requires Valid() && step == EmailEntry
      modifies this
      ensures Snapshot() == EmailTyped(old(Snapshot()), value) && Valid()
    {
      email := value;
    }

    method HandleEmailSubmit()
      requires Valid()
      modifies this
      ensures Snapshot() == EmailSubmitted(old(Snapshot())) && Valid()
    {
      if !ValidateEmail(email) {
        emailError := InvalidEmailMessage;
        return;
      }
      emailError := "";
      step := ProfileEntry;
    }

    /** Builds the request body and then applies the reply to that request; the
        two submit buttons exist only at step 2. Returns the body sent. */
    method HandleFinalSubmit(skip: bool, now: string, reply: Reply, fallback: int) returns (sent: map<string, Json>)
      requires Valid() && step == ProfileEntry && 1 <= fallback <= 200
      modifies this
      ensures sent == Payload(old(email), old(formData), skip, now)
      ensures Snapshot() == FinalSubmitted(old(Snapshot()), reply, fallback) && Valid()
    {
      sent := map["email" := JStr(email)];
      if !skip {
        sent := sent + formData.ToJson();
      }
      sent := sent["timestamp" := JStr(now)];
      if reply.Responded? && reply.ok {
        waitlistPosition := OrElse(reply.position, JNum(fallback));
        step := Confirmation;
      } else {
        emailError := SubmitFailedMessage;
        step := EmailEntry;
      }
    }

    method HandleInputChange(f: Field, value: string)
      requires Valid()
      modifies this
      ensures Snapshot() == InputChanged(old(Snapshot()), f, value) && Valid()
    {
      formData := formData.With(f, value);
    }

    method BackToHome()
      requires Valid()
      modifies this
      ensures Snapshot() == ReturnedHome(old(Snapshot())) && Valid()
    {
      step := EmailEntry;
      email := "";
      formData := EmptyProfile;
      waitlistPosition := JNull;
    }

    method GetStarted()
      requires Valid()
      modifies this
      ensures Snapshot() == Started(old(Snapshot())) && Valid()
    {
      step := EmailEntry;
    }
  }
}
