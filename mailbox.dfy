/** The email provider as the labeller sees it (the `EmailProvider`
    interface of packages/core/src/interfaces/email-provider.ts), as an
    abstract mailbox: the label ids on each message, the set of trashed
    messages and a log of the searches asked of it. What a search, a label
    listing or `ensureLabelsExist` answers is fixed by oracles; requests about
    the messages in `unreachable` throw. */
module Provider {
  import opened Wrappers
  import opened Errors
  import opened Mail
  import opened StringMap

  /** The label ids on each message, by message id. */
  type LabelIndex = map<string, set<string>>

  const RequestFailure := ProviderError("request failed", "mailbox", "")

  function LabelsOf(index: LabelIndex, emailId: string): set<string> {
    if emailId in index then index[emailId] else {}
  }

  /** `applyLabel(emailId, labelId)`: the message gains the label, nothing else
      changes; on an unreachable message it throws and nothing changes. */
  function ApplyLabelStep(index: LabelIndex, unreachable: set<string>, emailId: string, labelId: string): (r: (LabelIndex, Option<Error>))
    ensures r.1.None? <==> emailId !in unreachable
    ensures r.1.Some? ==> r.0 == index
    ensures r.1.None? ==> LabelsOf(r.0, emailId) == LabelsOf(index, emailId) + {labelId}
    ensures forall other :: other != emailId ==> LabelsOf(r.0, other) == LabelsOf(index, other)
  {
    if emailId in unreachable then (index, Some(RequestFailure))
    else (index[emailId := LabelsOf(index, emailId) + {labelId}], None)
  }

  /** `hasLabels(emailId, labelIds)`: whether the message carries any of the
      ids. */
  function HasLabelsResult(index: LabelIndex, unreachable: set<string>, emailId: string, labelIds: seq<string>): (r: Result<bool, Error>)
    ensures r.Err? <==> emailId in unreachable
    ensures r.Ok? ==> (r.value <==> exists i :: 0 <= i < |labelIds| && labelIds[i] in LabelsOf(index, emailId))
  {
    if emailId in unreachable then Err(RequestFailure)
    else Ok(exists i :: 0 <= i < |labelIds| && labelIds[i] in LabelsOf(index, emailId))
  }

  /** `trashEmail(emailId)` */
  function TrashStep(trashed: set<string>, unreachable: set<string>, emailId: string): (r: (set<string>, Option<Error>))
    ensures r.1.None? <==> emailId !in unreachable
    ensures r.0 == if r.1.None? then trashed + {emailId} else trashed
  {
    if emailId in unreachable then (trashed, Some(RequestFailure)) else (trashed + {emailId}, None)
  }

  class Mailbox {
    var labelIndex: LabelIndex
    var trashed: set<string>
    /** Every `getEmails` request, in order. */
    var searches: seq<GetEmailsOptions>
    /** How many times `ensureLabelsExist` was called. */
    var ensureCalls: nat
    /** Messages on which every request throws. */
    const unreachable: set<string>
    /** What `getEmails(options)` answers. */
    const search: GetEmailsOptions -> Result<seq<EmailSummary>, Error>
    /** What `ensureLabelsExist(labels)` answers: label name to label id. */
    const ensure: seq<LabelDefinition> -> Result<StrMap, Error>
    /** What `listLabels()` answers. */
    const listing: Result<seq<AppliedLabel>, Error>

    constructor (labelIndex: LabelIndex, unreachable: set<string>,
                 search: GetEmailsOptions -> Result<seq<EmailSummary>, Error>,
                 ensure: seq<LabelDefinition> -> Result<StrMap, Error>,
                 listing: Result<seq<AppliedLabel>, Error>)
      ensures this.labelIndex == labelIndex && trashed == {} && searches == [] && ensureCalls == 0
      ensures this.unreachable == unreachable && this.search == search
      ensures this.ensure == ensure && this.listing == listing
    {
      this.labelIndex := labelIndex;
      trashed := {};
      searches := [];
      ensureCalls := 0;
      this.unreachable := unreachable;
      this.search := search;
      this.ensure := ensure;
      this.listing := listing;
    }

    method EnsureLabelsExist(labels: seq<LabelDefinition>) returns (r: Result<StrMap, Error>)
      modifies this
      ensures r == ensure(labels) && ensureCalls == old(ensureCalls) + 1
      ensures labelIndex == old(labelIndex) && trashed == old(trashed) && searches == old(searches)
    {
      ensureCalls := ensureCalls + 1;
      r := ensure(labels);
    }

    method GetEmails(options: GetEmailsOptions) returns (r: Result<seq<EmailSummary>, Error>)
      modifies this
      ensures r == search(options) && searches == old(searches) + [options]
      ensures labelIndex == old(labelIndex) && trashed == old(trashed) && ensureCalls == old(ensureCalls)
    {
      searches := searches + [options];
      r := search(options);
    }

    method ListLabels() returns (r: Result<seq<AppliedLabel>, Error>)
      ensures r == listing
    {
      r := listing;
    }

    method ApplyLabel(emailId: string, labelId: string) returns (failure: Option<Error>)
      modifies this
      ensures (labelIndex, failure) == ApplyLabelStep(old(labelIndex), unreachable, emailId, labelId)
      ensures trashed == old(trashed) && searches == old(searches) && ensureCalls == old(ensureCalls)
    {
      if emailId in unreachable {
        return Some(RequestFailure);
      }
      labelIndex := labelIndex[emailId := LabelsOf(labelIndex, emailId) + {labelId}];
      failure := None;
    }

    method HasLabels(emailId: string, labelIds: seq<string>) returns (r: Result<bool, Error>)
      ensures r == HasLabelsResult(labelIndex, unreachable, emailId, labelIds)
    {
      r := HasLabelsResult(labelIndex, unreachable, emailId, labelIds);
    }

    method TrashEmail(emailId: string) returns (failure: Option<Error>)
      modifies this
      ensures (trashed, failure) == TrashStep(old(trashed), unreachable, emailId)
      ensures labelIndex == old(labelIndex) && searches == old(searches) && ensureCalls == old(ensureCalls)
    {
      if emailId in unreachable {
        return Some(RequestFailure);
      }
      trashed := trashed + {emailId};
      failure := None;
    }
  }
}
