/** The reply generator tab of the current `MainView`: the message form,
    its quick templates, and what a finished generation does to it. */
module Replies {
  import opened Wrappers
  import opened Models
  import opened Api

  /** The state of the generator tab. */
  datatype ReplyForm = ReplyForm(
    message: string,
    selectedPlatform: string,
    generatedReplies: seq<GeneratedReply>,
    isLoading: bool,
    errorMessage: string,
    showError: bool,
    includeEmojis: bool,
    templatesExpanded: bool)

  const Platforms: seq<string> := ["Instagram", "TikTok", "Email"]

  /** The tab as first shown. */
  function InitialForm(): ReplyForm {
    ReplyForm("", Platforms[0], [], false, "", false, true, false)
  }

  /** A quick template: the chip's label (`name`) and the message it fills in. */
  datatype Template = Template(name: string, prompt: string)

  const QuickTemplates: seq<Template> := [
    Template("Thank You", "Customer says: Thanks for the info!\nGenerate a warm follow-up reply"),
    Template("Great Question", "Customer asks: What services do you offer?\nGenerate an informative reply"),
    Template("Happy to Help", "Customer says: I need help with my booking\nGenerate a helpful reply"),
    Template("Book Now", "Customer says: I want to book an appointment\nGenerate a reply with booking instructions"),
    Template("Pricing", "Customer asks: How much do your services cost?\nGenerate a reply about pricing"),
    Template("Availability", "Customer asks: When are you available?\nGenerate a reply about availability"),
    Template("Complaint", "Customer says: I'm really frustrated with the service I received. This was not what I expected!\nGenerate a professional, empathetic reply that acknowledges their concern"),
    Template("Refund", "Customer says: I want my money back. The service was not satisfactory.\nGenerate a calm, professional reply addressing their refund request"),
    Template("Unhappy", "Customer says: I'm very disappointed. This is unacceptable.\nGenerate an empathetic reply that shows you care and want to make it right"),
    Template("Delay", "Customer says: Why is this taking so long? I've been waiting forever!\nGenerate an apologetic reply explaining the delay professionally"),
    Template("Cancel", "Customer says: I need to cancel my appointment/order.\nGenerate a polite reply handling the cancellation gracefully"),
    Template("Negative Review", "Customer left a negative review: Poor experience, would not recommend.\nGenerate a professional public response that addresses concerns and invites them to discuss further")
  ]

  /** The first two letters of a label. */
  function Initials(n: string): (char, char) {
    if |n| >= 2 then (n[0], n[1]) else (' ', ' ')
  }

  /** The position of the template whose label starts with these letters. */
  function Slot(k: (char, char)): int {
    match k
    case ('T', 'h') => 0 case ('G', 'r') => 1 case ('H', 'a') => 2 case ('B', 'o') => 3
    case ('P', 'r') => 4 case ('A', 'v') => 5 case ('C', 'o') => 6 case ('R', 'e') => 7
    case ('U', 'n') => 8 case ('D', 'e') => 9 case ('C', 'a') => 10 case ('N', 'e') => 11
    case _ => -1
  }

  /** The chips are listed by label, so no two templates share one; and
      every template fills in a message. */
  lemma TemplateLabelsDistinct()
    ensures |QuickTemplates| == 12
    ensures forall i, j :: 0 <= i < j < |QuickTemplates| ==> QuickTemplates[i].name != QuickTemplates[j].name
    ensures forall i :: 0 <= i < |QuickTemplates| ==> |QuickTemplates[i].prompt| > 0
  {
    forall i | 0 <= i < |QuickTemplates|
      ensures Slot(Initials(QuickTemplates[i].name)) == i && |QuickTemplates[i].prompt| > 0
    {
      TemplateSlot(i);
    }
  }

  /** Template `i` is found again from its label's first two letters. */
  lemma TemplateSlot(i: int)
    requires 0 <= i < |QuickTemplates|
    ensures Slot(Initials(QuickTemplates[i].name)) == i && |QuickTemplates[i].prompt| > 0
  {
    if i < 6 {
      assert i == 0 || i == 1 || i == 2 || i == 3 || i == 4 || i == 5;
    } else {
      assert i == 6 || i == 7 || i == 8 || i == 9 || i == 10 || i == 11;
    }
  }

  /** The Generate button is enabled when idle with a message. */
  predicate CanGenerate(f: ReplyForm) {
    !f.isLoading && |f.message| > 0
  }

  /** Tapping a template chip: its prompt becomes the message and the list folds. */
  function SelectTemplate(f: ReplyForm, i: nat): (r: ReplyForm)
    requires i < |QuickTemplates|
    ensures r.message == QuickTemplates[i].prompt && !r.templatesExpanded
    ensures r.generatedReplies == f.generatedReplies && r.isLoading == f.isLoading
  {
    f.(message := QuickTemplates[i].prompt, templatesExpanded := false)
  }

  /** The Clear button is shown only over a non-empty message. */
  predicate ClearOffered(f: ReplyForm) {
    |f.message| > 0
  }

  /** Clear empties the message and nothing else. */
  function Clear(f: ReplyForm): (r: ReplyForm)
    ensures r.message == "" && r == f.(message := "")
  {
    f.(message := "")
  }

  /** After picking a template the form can be sent unless a request is in
      flight; after Clear it cannot, and Clear is no longer offered. */
  lemma TemplateAndClear(f: ReplyForm, i: nat)
    requires i < |QuickTemplates|
    ensures CanGenerate(SelectTemplate(f, i)) <==> !f.isLoading
    ensures !CanGenerate(Clear(f)) && !ClearOffered(Clear(f))
    ensures ClearOffered(SelectTemplate(f, i))
  {
    TemplateLabelsDistinct();
  }

  /** `String.lowercased()` on ASCII letters; other characters are kept. */
  function AsciiLower(s: string): (r: string)
    ensures |r| == |s|
    ensures forall i :: 0 <= i < |s| ==> r[i] == LowerChar(s[i])
  {
    seq(|s|, i requires 0 <= i < |s| => LowerChar(s[i]))
  }

  function LowerChar(c: char): char {
    if 'A' <= c <= 'Z' then (c as int + 32) as char else c
  }

  /** Lowering twice is lowering once, and the three platforms are sent as
      "instagram", "tiktok" and "email". */
  lemma AsciiLowerFacts(s: string)
    ensures AsciiLower(AsciiLower(s)) == AsciiLower(s)
    ensures forall i :: 0 <= i < |s| ==> !('A' <= AsciiLower(s)[i] <= 'Z')
    ensures AsciiLower(Platforms[0]) == "instagram"
    ensures AsciiLower(Platforms[1]) == "tiktok"
    ensures AsciiLower(Platforms[2]) == "email"
  {
  }

  /** The `generateReplies` request. */
  datatype ReplyCall = ReplyCall(path: string, message: string, platform: string, includeEmojis: bool)

  /** Pressing Generate: the spinner starts, the old message is cleared, and
      the message is sent with the platform in lower case. */
  function SubmitGenerate(f: ReplyForm): (r: (ReplyForm, ReplyCall))
    ensures r.0.isLoading && r.0.errorMessage == "" && !CanGenerate(r.0)
    ensures r.1.path == GenerateRepliesPath && r.1.message == f.message
    ensures r.1.platform == AsciiLower(f.selectedPlatform) && r.1.includeEmojis == f.includeEmojis
  {
    (f.(isLoading := true, errorMessage := ""),
     ReplyCall(GenerateRepliesPath, f.message, AsciiLower(f.selectedPlatform), f.includeEmojis))
  }

  const FailedMessage: string := "Failed to generate replies. Please try again."
  const UnexpectedMessage: string := "An unexpected error occurred."

  /** The alert text for a failed generation. */
  function GenerateErrorMessage(t: Thrown): string {
    match t
    case ApiFailure(ServerError(m)) => m
    case ApiFailure(_) => FailedMessage
    case _ => UnexpectedMessage
  }

  /** `generateReplies` once the request has returned. */
  function FinishGenerate(f: ReplyForm, outcome: Result<seq<GeneratedReply>, Thrown>): ReplyForm {
    match outcome
    case Ok(replies) => f.(generatedReplies := replies, isLoading := false)
    case Err(t) => f.(errorMessage := GenerateErrorMessage(t), showError := true, isLoading := false)
  }

  /** Every outcome stops the spinner and keeps the message. Success
      replaces the replies wholesale; failure keeps the previous replies and
      raises an alert whose text is the server's message for a server error,
      the generic failure text for any other `APIError`, and the
      unexpected-error text for anything else. */
  lemma GenerateOutcome(f: ReplyForm, replies: seq<GeneratedReply>, t: Thrown)
    ensures var r := FinishGenerate(SubmitGenerate(f).0, Ok(replies));
      && r.generatedReplies == replies && !r.isLoading && r.message == f.message
      && (CanGenerate(r) <==> |f.message| > 0)
    ensures var r := FinishGenerate(SubmitGenerate(f).0, Err(t));
      && r.generatedReplies == f.generatedReplies && !r.isLoading && r.showError && r.message == f.message
      && (t.ApiFailure? && t.error.ServerError? ==> r.errorMessage == t.error.message)
      && (t.ApiFailure? && !t.error.ServerError? ==> r.errorMessage == FailedMessage)
      && (!t.ApiFailure? ==> r.errorMessage == UnexpectedMessage)
  {
  }

  /** Unlike on the login screen, a 401 here is not singled out: it reads
      as the generic failure text. */
  lemma UnauthorizedIsGeneric<T>(body: Option<ErrorResponse>, decoded: Result<T, string>)
    ensures GenerateErrorMessage(Send(true, Pass, HttpResponse(401, body, decoded)).error) == FailedMessage
  {
  }
}
