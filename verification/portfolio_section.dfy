/** The home page's portfolio section: cards for the featured projects and
    a contact form whose submissions are posted to a chat webhook after a
    human-verification challenge. */
module PortfolioSection {
  import opened Wrappers
  import opened Filtering
  import opened PortfolioData

  /** The longest value the webhook accepts in one embed field. */
  const FieldLimit: nat := 1024

  /** What replaces the tail of an over-long message. */
  const Ellipsis: string := "..."

  /** The message as placed in the webhook payload: sent whole when it fits
      the field limit, otherwise cut to 1021 characters and marked with an
      ellipsis. */
  function TruncateMessage(message: string): (r: string)
    ensures |r| <= FieldLimit
    ensures |message| <= FieldLimit ==> r == message
    ensures |message| > FieldLimit ==>
      |r| == FieldLimit && r[..FieldLimit - |Ellipsis|] == message[..FieldLimit - |Ellipsis|] &&
      r[FieldLimit - |Ellipsis|..] == Ellipsis
  {
    if |message| > FieldLimit then message[..FieldLimit - |Ellipsis|] + Ellipsis else message
  }

  /** Truncating an already truncated message changes nothing. */
  lemma TruncateIdempotent(message: string)
    ensures TruncateMessage(TruncateMessage(message)) == TruncateMessage(message)
  {
  }

  /** The values of the contact form. */
  datatype ContactForm = ContactForm(name: string, email: string, message: string, turnstileResponse: string)

  /** The form after `reset()`: every field empty. */
  const EmptyForm: ContactForm := ContactForm("", "", "", "")

  /** The form fields the schema can reject. */
  datatype Field = Name | Email | Message | TurnstileResponse

  /** The fields the schema rejects. Whether the address is well formed is
      decided by the validation library and is an input here. */
  function Rejected(form: ContactForm, emailWellFormed: bool): (r: set<Field>)
    ensures Name in r <==> |form.name| < 2
    ensures Email in r <==> !emailWellFormed
    ensures Message in r <==> |form.message| < 10
    ensures TurnstileResponse in r <==> form.turnstileResponse == ""
  {
    (if |form.name| < 2 then {Name} else {}) +
    (if emailWellFormed then {} else {Email}) +
    (if |form.message| < 10 then {Message} else {}) +
    (if form.turnstileResponse == "" then {TurnstileResponse} else {})
  }

  /** The schema's acceptance condition, field by field. */
  predicate Accepted(form: ContactForm, emailWellFormed: bool) {
    |form.name| >= 2 && emailWellFormed && |form.message| >= 10 && |form.turnstileResponse| >= 1
  }

  /** A form is accepted exactly when no field is rejected. */
  lemma AcceptedIffNothingRejected(form: ContactForm, emailWellFormed: bool)
    ensures Accepted(form, emailWellFormed) <==> Rejected(form, emailWellFormed) == {}
  {
    var r := Rejected(form, emailWellFormed);
    if r == {} {
      assert Name !in r && Message !in r && TurnstileResponse !in r && Email !in r;
    }
  }

  /** The three embed field values sent to the webhook. */
  datatype Payload = Payload(name: string, email: string, message: string)

  /** The payload built from submitted form values. */
  function PayloadFor(data: ContactForm): (r: Payload)
    ensures r.name == data.name && r.email == data.email
    ensures |r.message| <= FieldLimit
    ensures |data.message| <= FieldLimit ==> r.message == data.message
    ensures r.message == TruncateMessage(data.message)
  {
    Payload(data.name, data.email, TruncateMessage(data.message))
  }

  /** The banner state of the form: `'idle'`, `'success'` and `'error'`. */
  datatype SubmitStatus = Idle | Success | Failure

  /** How the webhook call ended, decided outside the page: no webhook
      address configured, a response with or without an ok status, or an
      exception from `fetch`. */
  datatype Outcome = NoWebhook | Responded(ok: bool) | Threw

  /** The status a submission ends in. */
  function StatusAfter(hasToken: bool, outcome: Outcome): (r: SubmitStatus)
    ensures r != Idle
    ensures r == Success <==> hasToken && (outcome == NoWebhook || outcome == Responded(true))
  {
    if !hasToken then Failure
    else match outcome
      case NoWebhook => Success
      case Responded(ok) => if ok then Success else Failure
      case Threw => Failure
  }

  /** The form's state: the banner, the busy flag, the challenge token, the
      form values and the payloads handed to `fetch`. */
  class ContactSubmission {
    var submitStatus: SubmitStatus
    var isSubmitting: bool
    var turnstileToken: string
    var form: ContactForm
    var requests: seq<Payload>

    /** Every write of the token also writes the form's challenge field, so
        the two always agree. */
    predicate Valid()
      reads this
    {
      form.turnstileResponse == turnstileToken
    }

    constructor ()
      ensures Valid()
      ensures submitStatus == Idle && !isSubmitting && turnstileToken == ""
      ensures form == EmptyForm && requests == []
    {
      submitStatus := Idle;
      isSubmitting := false;
      turnstileToken := "";
      form := EmptyForm;
      requests := [];
    }

    /** Typing in the name, email and message inputs. */
    method EditFields(name: string, email: string, message: string)
      requires Valid()
      modifies this
      ensures Valid()
      ensures form == old(form).(name := name, email := email, message := message)
      ensures turnstileToken == old(turnstileToken) && submitStatus == old(submitStatus)
      ensures isSubmitting == old(isSubmitting) && requests == old(requests)
    {
      form := form.(name := name, email := email, message := message);
    }

    /** The challenge widget's success callback: the token is stored and
        copied into the form. */
    method ReceiveToken(token: string)
      requires Valid()
      modifies this
      ensures Valid()
      ensures turnstileToken == token && form == old(form).(turnstileResponse := token)
      ensures submitStatus == old(submitStatus) && isSubmitting == old(isSubmitting)
      ensures requests == old(requests)
    {
      turnstileToken := token;
      form := form.(turnstileResponse := token);
    }

    /** The widget's error and expiry callbacks: the token is dropped from
        the state and the form. They may fire while a request is pending. */
    method DropToken()
      requires Valid()
      modifies this
      ensures Valid()
      ensures turnstileToken == "" && form == old(form).(turnstileResponse := "")
      ensures submitStatus == old(submitStatus) && isSubmitting == old(isSubmitting)
      ensures requests == old(requests)
    {
      turnstileToken := "";
      form := form.(turnstileResponse := "");
    }

    /** `onSubmit(data)` up to the `await` on `fetch`. Without a token it
        fails at once; with a token and no webhook it succeeds at once;
        otherwise the payload is handed to `fetch` and the submission stays
        pending with the busy flag set. */
    method BeginSubmit(data: ContactForm, webhookConfigured: bool) returns (pending: bool)
      requires Valid()
      modifies this
      ensures Valid()
      ensures pending <==> old(turnstileToken) != "" && webhookConfigured
      ensures old(turnstileToken) == "" ==>
        submitStatus == Failure && isSubmitting == old(isSubmitting) && turnstileToken == old(turnstileToken) &&
        form == old(form) && requests == old(requests)
      ensures old(turnstileToken) != "" && !webhookConfigured ==>
        submitStatus == Success && !isSubmitting && turnstileToken == "" && form == EmptyForm &&
        requests == old(requests)
      ensures pending ==>
        isSubmitting && submitStatus == old(submitStatus) && turnstileToken == old(turnstileToken) &&
        form == old(form) && requests == old(requests) + [PayloadFor(data)]
    {
      if turnstileToken == "" {
        submitStatus := Failure;
        return false;
      }
      isSubmitting := true;
      if !webhookConfigured {
        submitStatus := Success;
        form := EmptyForm;
        turnstileToken := "";
        isSubmitting := false;
        return false;
      }
      requests := requests + [PayloadFor(data)];
      pending := true;
    }

    /** The rest of `onSubmit` once `fetch` settles: an ok response is a
        success that resets the form and the token; a failed response or an
        exception is an error that keeps them as they are now, which may
        differ from how they were when the request was sent. */
    method FinishSubmit(outcome: Outcome)
      requires Valid() && outcome != NoWebhook
      modifies this
      ensures Valid()
      ensures submitStatus == StatusAfter(true, outcome) && !isSubmitting
      ensures submitStatus == Success ==> turnstileToken == "" && form == EmptyForm
      ensures submitStatus == Failure ==> turnstileToken == old(turnstileToken) && form == old(form)
      ensures requests == old(requests)
    {
      var failed := false;
      if outcome == Responded(true) {
        submitStatus := Success;
        form := EmptyForm;
        turnstileToken := "";
      } else {
        failed := true;
      }
      if failed {
        submitStatus := Failure;
      }
      isSubmitting := false;
    }

    /** `onSubmit(data)` run to completion, with no callback firing while
        the request is pending. */
    method OnSubmit(data: ContactForm, outcome: Outcome)
      requires Valid()
      modifies this
      ensures Valid()
      ensures submitStatus == StatusAfter(old(turnstileToken) != "", outcome)
      ensures old(turnstileToken) == "" ==>
        submitStatus == Failure && isSubmitting == old(isSubmitting) && turnstileToken == old(turnstileToken) &&
        form == old(form) && requests == old(requests)
      ensures old(turnstileToken) != "" ==> !isSubmitting
      ensures old(turnstileToken) != "" && outcome != NoWebhook ==> requests == old(requests) + [PayloadFor(data)]
      ensures old(turnstileToken) != "" && outcome == NoWebhook ==> requests == old(requests)
      ensures submitStatus == Success ==> turnstileToken == "" && form == EmptyForm
      ensures submitStatus == Failure ==> turnstileToken == old(turnstileToken) && form == old(form)
    {
      var pending := BeginSubmit(data, outcome != NoWebhook);
      if pending {
        FinishSubmit(outcome);
      }
    }

    /** `handleSubmit(onSubmit)`: the form's own values are checked against
        the schema and handed to `onSubmit` only when accepted. Since the
        challenge field mirrors the token, an accepted form always has a
        token, so the no-token branch of `onSubmit` is not reached this
        way. */
    method HandleSubmit(emailWellFormed: bool, outcome: Outcome)
      requires Valid()
      modifies this
      ensures Valid()
      ensures Accepted(old(form), emailWellFormed) ==> old(turnstileToken) != ""
      ensures !Accepted(old(form), emailWellFormed) ==>
        submitStatus == old(submitStatus) && isSubmitting == old(isSubmitting) &&
        turnstileToken == old(turnstileToken) && form == old(form) && requests == old(requests)
      ensures Accepted(old(form), emailWellFormed) ==>
        submitStatus == StatusAfter(true, outcome) && !isSubmitting &&
        requests == old(requests) + (if outcome == NoWebhook then [] else [PayloadFor(old(form))])
      ensures Accepted(old(form), emailWellFormed) && submitStatus == Success ==>
        turnstileToken == "" && form == EmptyForm
      ensures Accepted(old(form), emailWellFormed) && submitStatus == Failure ==>
        turnstileToken == old(turnstileToken) && form == old(form)
    {
      var data := form;
      if Accepted(data, emailWellFormed) {
        OnSubmit(data, outcome);
      }
    }
  }

  /** What a card shows for a project. */
  datatype Card = Card(
    id: nat, title: string, text: string, tags: seq<string>,
    platform: string, status: string, players: string, revenue: string)

  /** `project.shortDescription || project.description`: an absent or empty
      short description falls back to the full one. */
  function CardText(p: Project): (r: string)
    ensures r == p.description || (r != "" && p.shortDescription == Some(r))
    ensures p.shortDescription.Some? && p.shortDescription.value != "" ==> r == p.shortDescription.value
  {
    match p.shortDescription
    case Some(s) => if s != "" then s else p.description
    case None => p.description
  }

  /** `project.tags.slice(0, 3)`: the first three tags, or all of them when
      there are fewer. */
  function VisibleTags(p: Project): (r: seq<string>)
    ensures r <= p.tags
    ensures |r| == if |p.tags| < 3 then |p.tags| else 3
  {
    if |p.tags| < 3 then p.tags else p.tags[..3]
  }

  function CardOf(p: Project): (r: Card)
    ensures r.id == p.id && r.title == p.title && r.platform == p.platform && r.status == p.status.Label()
    ensures r.players == p.stats.players && r.revenue == p.stats.revenue
    ensures r.text == CardText(p) && r.tags == VisibleTags(p)
  {
    Card(p.id, p.title, CardText(p), VisibleTags(p), p.platform, p.status.Label(), p.stats.players, p.stats.revenue)
  }

  /** The section's cards: one per featured project, in catalog order. */
  function Cards(projects: seq<Project>): (r: seq<Card>)
    ensures |r| == |GetFeaturedProjects(projects)|
    ensures forall i :: 0 <= i < |r| ==> r[i] == CardOf(GetFeaturedProjects(projects)[i])
  {
    var featured := GetFeaturedProjects(projects);
    seq(|featured|, i requires 0 <= i < |featured| => CardOf(featured[i]))
  }

  /** The cards carry the featured projects' ids, in order. */
  lemma CardsFollowIds(projects: seq<Project>, ids: seq<nat>)
    requires Ids(GetFeaturedProjects(projects)) == ids
    ensures |Cards(projects)| == |ids|
    ensures forall i :: 0 <= i < |ids| ==> Cards(projects)[i].id == ids[i]
  {
  }
}
