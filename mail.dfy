/** The value types shared by the provider, the classifier and the labeller
    (packages/core/src/types/email.ts, label.ts and common.ts). */
module Mail {
  import opened Wrappers

  /** A message as fetched from the provider; `id` is the join key used by the
      state store, label application and rule matching. */
  datatype EmailSummary = EmailSummary(
    id: string, threadId: string, subject: string, from: string, snippet: string, date: string)

  datatype LabelColor = LabelColor(backgroundColor: string, textColor: string)

  /** A label as declared in the configuration; `name` is its identity. */
  datatype LabelDefinition = LabelDefinition(
    name: string, description: string, color: LabelColor, keywords: Option<seq<string>>)

  /** A label as the provider lists it. */
  datatype AppliedLabel = AppliedLabel(name: string, providerId: string)

  /** The options of `getEmails`; an absent field is `None`. */
  datatype GetEmailsOptions = GetEmailsOptions(
    maxResults: Option<nat>, query: Option<string>, excludeLabels: Option<seq<string>>, pageToken: Option<string>)

  function Names(labels: seq<LabelDefinition>): (r: seq<string>)
    ensures |r| == |labels|
    ensures forall i :: 0 <= i < |labels| ==> r[i] == labels[i].name
  {
    if labels == [] then [] else [labels[0].name] + Names(labels[1..])
  }
}
