/** The classifier of the `ai-sdk` adapter
    (packages/adapters/ai-sdk/src/classifier.ts). It builds a prompt from the
    email and the label catalog, asks a language model for an object that a
    schema then checks, and in a batch falls back to a fixed label for every
    email whose classification fails. The language model is an oracle from
    the prompt and the temperature to a raw answer or a failure. This
    adapter's result carries a list of labels, unlike the single label the
    labeller service works with. */
module AiClassifier {
  import opened Wrappers
  import opened Text
  import opened Errors
  import opened Mail

  /** `ClassificationResult` of this adapter. */
  datatype ClassificationResult = ClassificationResult(labels: seq<string>, confidence: Option<real>, reasoning: Option<string>)

  /** The language model: the object it generates for a prompt, or the
      message of its failure. */
  type Model = (string, Option<real>) -> Result<ClassificationResult, string>

  // ----- the prompt -----

  const Intro := "You are an email classifier. Given an email's subject, sender, and snippet, classify it into ONE OR MORE of these categories:\n\n"
  const Rules := "\n\nRules:\n- Return 1-3 labels that best describe this email\n- Use hierarchical labels when applicable (e.g., \"GitHub/Nuxt\" is more specific than \"GitHub\")\n- First label should be the most specific/relevant\n- If unsure, use \"Low Priority\"\n"
  const AdditionalHeading := "\n\nAdditional rules:\n"

  /** One catalog line per label: `- name: description`. */
  function LabelLines(labels: seq<LabelDefinition>): (r: seq<string>)
    ensures |r| == |labels|
    ensures forall i :: 0 <= i < |labels| ==> r[i] == "- " + labels[i].name + ": " + labels[i].description
  {
    seq(|labels|, i requires 0 <= i < |labels| => "- " + labels[i].name + ": " + labels[i].description)
  }

  function BasePrompt(labels: seq<LabelDefinition>): string {
    Intro + Join(LabelLines(labels), "\n") + Rules
  }

  /** The closing part: the email's sender, subject and snippet. */
  function EmailPart(email: EmailSummary): string {
    "\n\nEmail:\nFrom: " + email.from + "\nSubject: " + email.subject + "\nPreview: " + email.snippet + "\n\nClassify this email."
  }

  /** `buildPrompt(email, labels, systemPrompt)` */
  function BuildPrompt(email: EmailSummary, labels: seq<LabelDefinition>, systemPrompt: Option<string>): string {
    var full := if Truthy(systemPrompt) then BasePrompt(labels) + AdditionalHeading + systemPrompt.value else BasePrompt(labels);
    full + EmailPart(email)
  }

  /** The prompt starts with the fixed introduction. */
  lemma BuildPromptStarts(email: EmailSummary, labels: seq<LabelDefinition>, systemPrompt: Option<string>)
    ensures StartsWith(BuildPrompt(email, labels, systemPrompt), Intro)
  {
    var joined := Join(LabelLines(labels), "\n");
    StartsWithAppend(Intro, joined);
    StartsWithExtend(Intro + joined, Intro, Rules);
    var base := BasePrompt(labels);
    var full := base;
    if Truthy(systemPrompt) {
      StartsWithExtend(base, Intro, AdditionalHeading);
      StartsWithExtend(base + AdditionalHeading, Intro, systemPrompt.value);
      full := base + AdditionalHeading + systemPrompt.value;
    }
    StartsWithExtend(full, Intro, EmailPart(email));
  }

  /** The prompt ends with the email's sender, subject and snippet. */
  lemma BuildPromptEnds(email: EmailSummary, labels: seq<LabelDefinition>, systemPrompt: Option<string>)
    ensures EndsWith(BuildPrompt(email, labels, systemPrompt), EmailPart(email))
  {
    var full := if Truthy(systemPrompt) then BasePrompt(labels) + AdditionalHeading + systemPrompt.value else BasePrompt(labels);
    EndsWithAppend(full, EmailPart(email));
  }

  /** The prompt lists every label as `- name: description`. */
  lemma BuildPromptListsLabels(email: EmailSummary, labels: seq<LabelDefinition>, systemPrompt: Option<string>, i: nat)
    requires i < |labels|
    ensures Contains(BuildPrompt(email, labels, systemPrompt), "- " + labels[i].name + ": " + labels[i].description)
  {
    var lines := LabelLines(labels);
    var joined := Join(lines, "\n");
    var line := lines[i];
    JoinContains(lines, "\n", i);
    ContainsPrepend(Intro, joined, line);
    ContainsExtend(Intro + joined, line, Rules);
    var base := BasePrompt(labels);
    var full := base;
    if Truthy(systemPrompt) {
      ContainsExtend(base, line, AdditionalHeading);
      ContainsExtend(base + AdditionalHeading, line, systemPrompt.value);
      full := base + AdditionalHeading + systemPrompt.value;
    }
    ContainsExtend(full, line, EmailPart(email));
  }

  /** The additional rules follow the fixed rules exactly when a non-empty
      system prompt is given. */
  lemma BuildPromptAdditional(email: EmailSummary, labels: seq<LabelDefinition>, systemPrompt: Option<string>)
    ensures Truthy(systemPrompt) ==>
      BuildPrompt(email, labels, systemPrompt) == BasePrompt(labels) + AdditionalHeading + systemPrompt.value + EmailPart(email)
    ensures !Truthy(systemPrompt) ==> BuildPrompt(email, labels, systemPrompt) == BasePrompt(labels) + EmailPart(email)
  {
  }

  // ----- one classification -----

  /** What the schema accepts: one to three labels, each a catalog name, and
      a confidence between 0 and 1 when there is one. */
  predicate Accepted(result: ClassificationResult, labelNames: seq<string>) {
    && 1 <= |result.labels| <= 3
    && (forall i :: 0 <= i < |result.labels| ==> result.labels[i] in labelNames)
    && (result.confidence.Some? ==> 0.0 <= result.confidence.value <= 1.0)
  }

  const SchemaFailure := "the generated object does not match the schema"

  /** `classify(email, labels, systemPrompt)`: the checked answer of the
      model, or a classification error for this email. */
  function Classify(model: Model, temperature: Option<real>, email: EmailSummary, labels: seq<LabelDefinition>, systemPrompt: Option<string>)
    : (r: Result<ClassificationResult, Error>)
    ensures r.Ok? ==> Accepted(r.value, Names(labels))
    ensures r.Ok? ==> model(BuildPrompt(email, labels, systemPrompt), temperature) == Ok(r.value)
    ensures r.Err? ==> r.error.ClassificationError? && r.error.emailId == email.id && r.error.Code() == "CLASSIFICATION_ERROR"
    ensures model(BuildPrompt(email, labels, systemPrompt), temperature).Ok? && Accepted(model(BuildPrompt(email, labels, systemPrompt), temperature).value, Names(labels)) ==> r.Ok?
  {
    match model(BuildPrompt(email, labels, systemPrompt), temperature)
    case Err(cause) => Err(ClassificationError("Failed to classify email", email.id, cause))
    case Ok(answer) =>
      if Accepted(answer, Names(labels)) then Ok(answer)
      else Err(ClassificationError("Failed to classify email", email.id, SchemaFailure))
  }

  /** With an empty catalog nothing is accepted: every classification fails. */
  lemma EmptyCatalogFails(model: Model, temperature: Option<real>, email: EmailSummary, systemPrompt: Option<string>)
    ensures Classify(model, temperature, email, [], systemPrompt).Err?
  {
    assert Names([]) == [];
    match model(BuildPrompt(email, [], systemPrompt), temperature)
    case Err(_) =>
    case Ok(answer) => NothingAcceptedFromNoNames(answer);
  }

  lemma NothingAcceptedFromNoNames(result: ClassificationResult)
    ensures !Accepted(result, [])
  {
    if 1 <= |result.labels| {
      assert result.labels[0] !in [];
    }
  }

  // ----- the batch -----

  /** The first label, from position `from` on, whose lower-cased name
      contains `low`. */
  function FirstLow(labels: seq<LabelDefinition>, from: nat): (r: Option<nat>)
    requires from <= |labels|
    decreases |labels| - from
    ensures r.Some? ==> from <= r.value < |labels| && Contains(Lower(labels[r.value].name), "low")
    ensures r.Some? ==> forall j :: from <= j < r.value ==> !Contains(Lower(labels[j].name), "low")
    ensures r.None? ==> forall j :: from <= j < |labels| ==> !Contains(Lower(labels[j].name), "low")
  {
    if from == |labels| then None
    else if Contains(Lower(labels[from].name), "low") then Some(from)
    else FirstLow(labels, from + 1)
  }

  /** The fallback label: the first label whose lower-cased name contains
      `low`, else the first label, else `Low Priority`. */
  function FallbackLabel(labels: seq<LabelDefinition>): (r: string)
    ensures labels == [] ==> r == "Low Priority"
    ensures labels != [] ==> r in Names(labels)
    ensures (exists i :: 0 <= i < |labels| && Contains(Lower(labels[i].name), "low")) ==> Contains(Lower(r), "low")
    ensures labels != [] && (forall i :: 0 <= i < |labels| ==> !Contains(Lower(labels[i].name), "low")) ==> r == labels[0].name
  {
    match FirstLow(labels, 0)
    case Some(i) => assert Names(labels)[i] == labels[i].name; labels[i].name
    case None => if labels != [] then assert Names(labels)[0] == labels[0].name; labels[0].name else "Low Priority"
  }

  /** What the batch records for one email. */
  function Outcome(model: Model, temperature: Option<real>, email: EmailSummary, labels: seq<LabelDefinition>, systemPrompt: Option<string>): ClassificationResult {
    match Classify(model, temperature, email, labels, systemPrompt)
    case Ok(result) => result
    case Err(_) => ClassificationResult([FallbackLabel(labels)], None, None)
  }

  /** The result map after the emails, in order: each id maps to the
      outcome of its last email. */
  function Batch(model: Model, temperature: Option<real>, emails: seq<EmailSummary>, labels: seq<LabelDefinition>, systemPrompt: Option<string>)
    : map<string, ClassificationResult>
  {
    if emails == [] then map[]
    else
      var last := emails[|emails| - 1];
      Batch(model, temperature, emails[..|emails| - 1], labels, systemPrompt)[last.id := Outcome(model, temperature, last, labels, systemPrompt)]
  }

  /** The ids an entry may have: those of the emails. */
  function IdSet(emails: seq<EmailSummary>): set<string> {
    set i | 0 <= i < |emails| :: emails[i].id
  }

  lemma IdSetSnoc(emails: seq<EmailSummary>)
    requires emails != []
    ensures IdSet(emails) == IdSet(emails[..|emails| - 1]) + {emails[|emails| - 1].id}
  {
    var front := emails[..|emails| - 1];
    forall id | id in IdSet(emails) ensures id in IdSet(front) + {emails[|emails| - 1].id} {
      var i :| 0 <= i < |emails| && emails[i].id == id;
      if i < |front| { assert front[i] == emails[i]; }
    }
    forall id | id in IdSet(front) ensures id in IdSet(emails) {
      var i :| 0 <= i < |front| && front[i].id == id;
      assert emails[i] == front[i];
    }
  }

  /** Every email id gets an entry and no other key does. */
  lemma {:induction false} BatchCoversEveryEmail(model: Model, temperature: Option<real>, emails: seq<EmailSummary>, labels: seq<LabelDefinition>, systemPrompt: Option<string>)
    ensures Batch(model, temperature, emails, labels, systemPrompt).Keys == IdSet(emails)
  {
    if emails != [] {
      BatchCoversEveryEmail(model, temperature, emails[..|emails| - 1], labels, systemPrompt);
      IdSetSnoc(emails);
    }
  }

  /** The entry of an email whose id no later email repeats is that email's
      outcome. */
  lemma {:induction false} BatchLastWins(model: Model, temperature: Option<real>, emails: seq<EmailSummary>, labels: seq<LabelDefinition>, systemPrompt: Option<string>, i: nat)
    requires i < |emails|
    requires forall j :: i < j < |emails| ==> emails[j].id != emails[i].id
    ensures emails[i].id in Batch(model, temperature, emails, labels, systemPrompt)
    ensures Batch(model, temperature, emails, labels, systemPrompt)[emails[i].id] == Outcome(model, temperature, emails[i], labels, systemPrompt)
  {
    if i < |emails| - 1 {
      var front := emails[..|emails| - 1];
      assert front[i] == emails[i];
      forall j | i < j < |front| ensures front[j].id != front[i].id {
        assert front[j] == emails[j];
      }
      BatchLastWins(model, temperature, front, labels, systemPrompt, i);
    }
  }

  /** Every entry has one to three labels, all from the catalog, or the one
      label `Low Priority` when the catalog is empty. */
  lemma {:induction false} BatchEntriesValid(model: Model, temperature: Option<real>, emails: seq<EmailSummary>, labels: seq<LabelDefinition>, systemPrompt: Option<string>)
    ensures forall id | id in Batch(model, temperature, emails, labels, systemPrompt) ::
      var entry := Batch(model, temperature, emails, labels, systemPrompt)[id];
      && 1 <= |entry.labels| <= 3
      && (labels != [] ==> forall k :: 0 <= k < |entry.labels| ==> entry.labels[k] in Names(labels))
      && (labels == [] ==> entry.labels == ["Low Priority"])
  {
    if emails != [] {
      var front := emails[..|emails| - 1];
      var last := emails[|emails| - 1];
      BatchEntriesValid(model, temperature, front, labels, systemPrompt);
      if labels == [] {
        EmptyCatalogFails(model, temperature, last, systemPrompt);
      }
    }
  }

  /** `classifyBatch(emails, labels, systemPrompt)`: one classification per
      email, in order, a failure replaced by the fallback label. */
  method ClassifyBatch(model: Model, temperature: Option<real>, emails: seq<EmailSummary>, labels: seq<LabelDefinition>, systemPrompt: Option<string>)
    returns (results: map<string, ClassificationResult>)
    ensures results == Batch(model, temperature, emails, labels, systemPrompt)
    ensures results.Keys == IdSet(emails)
  {
    results := map[];
    var fallback := FallbackLabel(labels);
    for i := 0 to |emails|
      invariant results == Batch(model, temperature, emails[..i], labels, systemPrompt)
    {
      assert emails[..i + 1][..i] == emails[..i];
      var result := Classify(model, temperature, emails[i], labels, systemPrompt);
      if result.Ok? {
        results := results[emails[i].id := result.value];
      } else {
        results := results[emails[i].id := ClassificationResult([fallback], None, None)];
      }
    }
    assert emails[..|emails|] == emails;
    BatchCoversEveryEmail(model, temperature, emails, labels, systemPrompt);
  }
}
