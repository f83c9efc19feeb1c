/** The labeller (packages/core/src/services/labeller.ts): it memoises the
    label-name-to-id map, classifies each new email and applies the label
    the classifier names, records processed ids in the state store, and
    trashes old mail by per-label retention rules. The provider is the
    abstract `Provider.Mailbox`, the store is `StateStore.FileStateStore`, and
    the classifier is an oracle that may fail. The progress callback is a log
    of the events it would receive; the clock is the `now` and `cutoffFor`
    parameters. */
module Labeller {
  import opened Wrappers
  import opened Text
  import opened Errors
  import opened Mail
  import opened StringMap
  import opened StateStore
  import opened Provider
  import ConfigSchema
  import GmailQuery

  datatype Status = Processing | Labeled | Skipped | Failed

  /** `ProgressInfo`; of the email it keeps the id and the subject. */
  datatype ProgressInfo = ProgressInfo(
    current: nat, total: nat, emailId: string, subject: string,
    labelName: Option<string>, status: Status, error: Option<Error>)

  /** `ClassificationResult`: the one label the classifier picked. */
  datatype Classification = Classification(labelName: string, confidence: Option<real>, reasoning: Option<string>)

  datatype LabelResult = LabelResult(emailId: string, labelName: string)

  datatype ProcessResult = ProcessResult(processed: nat, results: seq<LabelResult>)

  /** `CleanupResult`; `byLabel` is a record keyed by label name. */
  datatype CleanupResult = CleanupResult(deleted: nat, byLabel: map<string, nat>)

  datatype BackfillOptions = BackfillOptions(maxResults: Option<nat>, query: Option<string>, force: Option<bool>)

  /** The parts of the configuration the labeller reads. */
  datatype Settings = Settings(
    labels: seq<LabelDefinition>, cleanupRules: Option<seq<ConfigSchema.CleanupRule>>,
    classificationPrompt: Option<string>)

  /** `aiClassifier.classify(email, labels, prompt)` */
  type Classifier = (EmailSummary, seq<LabelDefinition>, Option<string>) -> Result<Classification, Error>

  const DefaultMaxResults := 50
  const BackfillMaxResults := 250
  const BackfillQuery := "in:inbox -label:SENT"
  const CleanupMaxResults := 100

  /** The event for the `i`-th of `total` candidates. */
  function Event(email: EmailSummary, i: nat, total: nat, status: Status, labelName: Option<string>, error: Option<Error>): ProgressInfo {
    ProgressInfo(i + 1, total, email.id, email.subject, labelName, status, error)
  }

  /** `emails.map(e => e.id)` */
  function Ids(emails: seq<EmailSummary>): (r: seq<string>)
    ensures |r| == |emails|
    ensures forall i :: 0 <= i < |emails| ==> r[i] == emails[i].id
  {
    seq(|emails|, i requires 0 <= i < |emails| => emails[i].id)
  }

  /** `emails.filter(e => ids.includes(e.id))` */
  function Candidates(emails: seq<EmailSummary>, ids: seq<string>): (r: seq<EmailSummary>)
    ensures |r| <= |emails|
    ensures forall e :: e in r <==> e in emails && e.id in ids
  {
    if emails == [] then []
    else
      var last := emails[|emails| - 1];
      Candidates(emails[..|emails| - 1], ids) + (if last.id in ids then [last] else [])
  }

  /** `labels.map(l => [l.name, l.providerId])` */
  function Pairs(labels: seq<AppliedLabel>): (r: seq<(string, string)>)
    ensures |r| == |labels|
    ensures forall i :: 0 <= i < |labels| ==> r[i] == (labels[i].name, labels[i].providerId)
  {
    seq(|labels|, i requires 0 <= i < |labels| => (labels[i].name, labels[i].providerId))
  }

  /** The search of a cleanup rule: its label with slashes and spaces turned
      into dashes, and the date part of the cutoff timestamp with slashes. */
  function RuleQuery(rule: ConfigSchema.CleanupRule, cutoffFor: real -> string): string {
    GmailQuery.LabelTerm(rule.labelName) + " before:" + ReplaceChar(BeforeChar(cutoffFor(rule.retentionDays), 'T'), '-', '/')
  }

  function RuleOptions(rule: ConfigSchema.CleanupRule, cutoffFor: real -> string): GetEmailsOptions {
    GetEmailsOptions(Some(CleanupMaxResults), Some(RuleQuery(rule, cutoffFor)), None, None)
  }

  /** What a pass over the candidates reads and changes. */
  datatype Progress = Progress(
    index: LabelIndex, file: StoredFile, events: seq<ProgressInfo>,
    results: seq<LabelResult>, classified: seq<string>)

  /** Everything the labeller's operations read and change: its memo, its
      event log and classifier calls, the mailbox and the state file. */
  datatype World = World(
    labelMap: Option<StrMap>, ensureCalls: nat, index: LabelIndex, trashed: set<string>,
    searches: seq<GetEmailsOptions>, file: StoredFile, events: seq<ProgressInfo>, classified: seq<string>)

  /** The part of the world a pass over the candidates works on, with no
      results yet, and the world once the pass is over. */
  function Enter(w: World): Progress {
    Progress(w.index, w.file, w.events, [], w.classified)
  }

  function Leave(w: World, p: Progress): World {
    w.(index := p.index, file := p.file, events := p.events, classified := p.classified)
  }

  // ----- reading the event log -----

  /** The events of one status, in order. */
  function WithStatus(events: seq<ProgressInfo>, status: Status): (r: seq<ProgressInfo>)
    ensures |r| <= |events|
  {
    if events == [] then []
    else
      var last := events[|events| - 1];
      WithStatus(events[..|events| - 1], status) + (if last.status == status then [last] else [])
  }

  lemma WithStatusSnoc(events: seq<ProgressInfo>, e: ProgressInfo, status: Status)
    ensures WithStatus(events + [e], status) == WithStatus(events, status) + (if e.status == status then [e] else [])
  {
    assert (events + [e])[..|events|] == events;
  }

  /** The label results the `'labeled'` events announce, in order. */
  function LabeledResults(events: seq<ProgressInfo>): seq<LabelResult> {
    if events == [] then []
    else
      var last := events[|events| - 1];
      LabeledResults(events[..|events| - 1])
        + (if last.status == Labeled then [LabelResult(last.emailId, last.labelName.GetOr(""))] else [])
  }

  lemma LabeledResultsSnoc(events: seq<ProgressInfo>, e: ProgressInfo)
    ensures LabeledResults(events + [e])
         == LabeledResults(events) + (if e.status == Labeled then [LabelResult(e.emailId, e.labelName.GetOr(""))] else [])
  {
    assert (events + [e])[..|events|] == events;
  }

  /** The `'processing'` events of a loop over `emails` from the `i`-th on. */
  function Started(emails: seq<EmailSummary>, i: nat): (r: seq<ProgressInfo>)
    requires i <= |emails|
    ensures |r| == |emails| - i
    ensures forall k :: 0 <= k < |r| ==> r[k] == Event(emails[i + k], i + k, |emails|, Processing, None, None)
  {
    seq(|emails| - i, k requires 0 <= k < |emails| - i => Event(emails[i + k], i + k, |emails|, Processing, None, None))
  }

  /** What classifying and labelling add to the events and the results:
      nothing, or a `'labeled'` event together with its result. */
  ghost predicate LabelTrace(p: Progress, q: Progress, email: EmailSummary, i: nat, total: nat) {
    || (q.events == p.events && q.results == p.results)
    || (exists name :: q.events == p.events + [Event(email, i, total, Labeled, Some(name), None)]
                      && q.results == p.results + [LabelResult(email.id, name)])
  }

  /** What an attempt adds to the events and the results: a labelling
      trace, or a `'skipped'` event. */
  ghost predicate AttemptTrace(p: Progress, q: Progress, email: EmailSummary, i: nat, total: nat) {
    || LabelTrace(p, q, email, i, total)
    || (q.events == p.events + [Event(email, i, total, Skipped, None, None)] && q.results == p.results)
  }

  /** A trace only appends events, none of them `'processing'`. */
  lemma TraceEvents(p: Progress, q: Progress, email: EmailSummary, i: nat, total: nat)
    requires AttemptTrace(p, q, email, i, total)
    ensures p.events <= q.events
    ensures WithStatus(q.events, Processing) == WithStatus(p.events, Processing)
  {
    if q.events == p.events {
    } else if q.events == p.events + [Event(email, i, total, Skipped, None, None)] {
      WithStatusSnoc(p.events, Event(email, i, total, Skipped, None, None), Processing);
    } else {
      var name :| q.events == p.events + [Event(email, i, total, Labeled, Some(name), None)];
      WithStatusSnoc(p.events, Event(email, i, total, Labeled, Some(name), None), Processing);
    }
  }

  /** The `'labeled'` events of a trace announce exactly the results it
      adds. */
  lemma TraceCounts(p: Progress, q: Progress, email: EmailSummary, i: nat, total: nat)
    requires AttemptTrace(p, q, email, i, total)
    ensures |p.results| <= |q.results| && q.results[..|p.results|] == p.results
    ensures LabeledResults(q.events) == LabeledResults(p.events) + q.results[|p.results|..]
  {
    if q.events == p.events && q.results == p.results {
    } else if q.events == p.events + [Event(email, i, total, Skipped, None, None)] && q.results == p.results {
      LabeledResultsSnoc(p.events, Event(email, i, total, Skipped, None, None));
    } else {
      var name :| q.events == p.events + [Event(email, i, total, Labeled, Some(name), None)]
                 && q.results == p.results + [LabelResult(email.id, name)];
      LabeledResultsSnoc(p.events, Event(email, i, total, Labeled, Some(name), None));
    }
  }

  /** The progress after a turn: the attempt's, with an `'error'` event if
      the attempt threw. */
  function Turn(q: Progress, email: EmailSummary, i: nat, total: nat, failure: Option<Error>): Progress {
    if failure.Some? then q.(events := q.events + [Event(email, i, total, Failed, None, failure)]) else q
  }

  /** A turn starts with its `'processing'` event and adds exactly one
      `'processing'` event. */
  lemma TurnAnnounces(p: Progress, q: Progress, email: EmailSummary, i: nat, total: nat, failure: Option<Error>)
    requires AttemptTrace(p.(events := p.events + [Event(email, i, total, Processing, None, None)]), q, email, i, total)
    ensures var r := Turn(q, email, i, total, failure);
      && p.events + [Event(email, i, total, Processing, None, None)] <= r.events
      && WithStatus(r.events, Processing) == WithStatus(p.events, Processing) + [Event(email, i, total, Processing, None, None)]
  {
    var start := Event(email, i, total, Processing, None, None);
    var started := p.(events := p.events + [start]);
    WithStatusSnoc(p.events, start, Processing);
    TraceEvents(started, q, email, i, total);
    if failure.Some? {
      var err := Event(email, i, total, Failed, None, failure);
      WithStatusSnoc(q.events, err, Processing);
      assert q.events <= q.events + [err];
    }
  }

  /** The `'labeled'` events of a turn announce exactly the results it adds;
      an `'error'` event keeps them. */
  lemma TurnCounts(p: Progress, q: Progress, email: EmailSummary, i: nat, total: nat, failure: Option<Error>)
    requires AttemptTrace(p.(events := p.events + [Event(email, i, total, Processing, None, None)]), q, email, i, total)
    ensures var r := Turn(q, email, i, total, failure);
      && |p.results| <= |r.results| && r.results[..|p.results|] == p.results
      && LabeledResults(r.events) == LabeledResults(p.events) + r.results[|p.results|..]
  {
    var start := Event(email, i, total, Processing, None, None);
    var started := p.(events := p.events + [start]);
    LabeledResultsSnoc(p.events, start);
    TraceCounts(started, q, email, i, total);
    if failure.Some? {
      LabeledResultsSnoc(q.events, Event(email, i, total, Failed, None, failure));
    }
  }

  /** A labelling trace adds no `'skipped'` event. */
  lemma LabelTraceNoSkip(p: Progress, q: Progress, email: EmailSummary, i: nat, total: nat)
    requires LabelTrace(p, q, email, i, total)
    ensures WithStatus(q.events, Skipped) == WithStatus(p.events, Skipped)
  {
    if q.events != p.events {
      var name :| q.events == p.events + [Event(email, i, total, Labeled, Some(name), None)];
      WithStatusSnoc(p.events, Event(email, i, total, Labeled, Some(name), None), Skipped);
    }
  }

  /** The `'error'` event of a turn is the only event it adds after the
      attempt. */
  lemma TurnKeeps(q: Progress, email: EmailSummary, i: nat, total: nat, failure: Option<Error>, status: Status)
    requires status != Failed
    ensures WithStatus(Turn(q, email, i, total, failure).events, status) == WithStatus(q.events, status)
  {
    if failure.Some? {
      WithStatusSnoc(q.events, Event(email, i, total, Failed, None, failure), status);
    }
  }

  /** A turn whose attempt only labels adds no `'skipped'` event. */
  lemma TurnNoSkip(p: Progress, q: Progress, email: EmailSummary, i: nat, total: nat, failure: Option<Error>)
    requires LabelTrace(p.(events := p.events + [Event(email, i, total, Processing, None, None)]), q, email, i, total)
    ensures WithStatus(Turn(q, email, i, total, failure).events, Skipped) == WithStatus(p.events, Skipped)
  {
    var start := Event(email, i, total, Processing, None, None);
    WithStatusSnoc(p.events, start, Skipped);
    LabelTraceNoSkip(p.(events := p.events + [start]), q, email, i, total);
    TurnKeeps(q, email, i, total, failure, Skipped);
  }

  lemma StartedCons(emails: seq<EmailSummary>, i: nat, before: seq<ProgressInfo>)
    requires i < |emails|
    ensures before + [Event(emails[i], i, |emails|, Processing, None, None)] + Started(emails, i + 1) == before + Started(emails, i)
  {
    assert Started(emails, i) == [Event(emails[i], i, |emails|, Processing, None, None)] + Started(emails, i + 1);
  }

  /** Keeping the emails whose ids `filterUnprocessed` returns keeps
      exactly the emails whose ids are not stored. */
  lemma CandidatesUnprocessed(all: seq<EmailSummary>, stored: seq<string>)
    ensures forall e :: e in Candidates(all, NewIds(stored, Ids(all))) <==> e in all && e.id !in stored
  {
    forall e | e in all ensures e.id in Ids(all) {
      var k :| 0 <= k < |all| && all[k] == e;
      assert Ids(all)[k] == e.id;
    }
  }

  /** The filter keeps the provider's order: it distributes over
      concatenation. */
  lemma {:induction false} CandidatesAppend(a: seq<EmailSummary>, b: seq<EmailSummary>, ids: seq<string>)
    ensures Candidates(a + b, ids) == Candidates(a, ids) + Candidates(b, ids)
    decreases |b|
  {
    if b == [] {
      assert a + b == a;
    } else {
      var b' := b[..|b| - 1];
      assert (a + b)[..|a + b| - 1] == a + b';
      assert (a + b)[|a + b| - 1] == b[|b| - 1];
      CandidatesAppend(a, b', ids);
    }
  }

  function Lookup(m: map<string, nat>, k: string): Option<nat> {
    if k in m then Some(m[k]) else None
  }

  /** A rule's query names its label with slashes and spaces turned into
      dashes, then ` before:` and the cutoff date. */
  lemma RuleQueryShape(rule: ConfigSchema.CleanupRule, cutoffFor: real -> string)
    ensures var q := RuleQuery(rule, cutoffFor);
      var n := |rule.labelName|;
      && |q| >= 14 + n
      && q[..6] == "label:"
      && (forall k :: 6 <= k < 6 + n ==> q[k] != '/' && q[k] != ' ')
      && q[6 + n..14 + n] == " before:"
  {
    var name := rule.labelName;
    GmailQuery.LabelTermSanitizes(name);
    var t := GmailQuery.LabelTerm(name);
    var q := RuleQuery(rule, cutoffFor);
    assert q == t + " before:" + ReplaceChar(BeforeChar(cutoffFor(rule.retentionDays), 'T'), '-', '/');
    assert q[..6] == t[..6];
    forall k | 6 <= k < 6 + |name| ensures q[k] != '/' && q[k] != ' ' {
      assert q[k] == t[k];
    }
  }

  /** Prefixes compose: the part of `c` after `a` is the part of `b` after
      `a` followed by the part of `c` after `b`. */
  lemma SuffixSplit<T>(a: seq<T>, b: seq<T>, c: seq<T>)
    requires |a| <= |b| && b[..|a|] == a
    requires |b| <= |c| && c[..|b|] == b
    ensures c[..|a|] == a
    ensures c[|a|..] == b[|a|..] + c[|b|..]
  {
    assert c[..|a|] == b[..|a|];
  }

  /** One turn of the candidate loop: the progress before it, the email,
      its position and the number of candidates. */
  type Turner = (Progress, EmailSummary, nat, nat) -> Progress

  /** The candidate loop from the `i`-th email on, for any turn. */
  function Run(emails: seq<EmailSummary>, i: nat, p: Progress, turn: Turner): Progress
    requires i <= |emails|
    decreases |emails| - i
  {
    if i == |emails| then p
    else Run(emails, i + 1, turn(p, emails[i], i, |emails|), turn)
  }

  /** The results of `q` extend those of `p`, and the `'labeled'` events
      `q` adds announce exactly the results it adds. */
  ghost predicate ResultsAnnounced(p: Progress, q: Progress) {
    && |p.results| <= |q.results| && q.results[..|p.results|] == p.results
    && LabeledResults(q.events) == LabeledResults(p.events) + q.results[|p.results|..]
  }

  /** A loop whose turns each announce their email announces every email
      once, in order. */
  lemma {:induction false} RunAnnounces(emails: seq<EmailSummary>, i: nat, p: Progress, turn: Turner)
    requires i <= |emails|
    requires forall q, e, j, n :: WithStatus(turn(q, e, j, n).events, Processing)
                                  == WithStatus(q.events, Processing) + [Event(e, j, n, Processing, None, None)]
    ensures WithStatus(Run(emails, i, p, turn).events, Processing) == WithStatus(p.events, Processing) + Started(emails, i)
    decreases |emails| - i
  {
    if i < |emails| {
      RunAnnounces(emails, i + 1, turn(p, emails[i], i, |emails|), turn);
      StartedCons(emails, i, WithStatus(p.events, Processing));
    }
  }

  /** A loop whose turns each announce the results they add announces all
      the results it adds. */
  lemma {:induction false} RunResults(emails: seq<EmailSummary>, i: nat, p: Progress, turn: Turner)
    requires i <= |emails|
    requires forall q, e, j, n :: ResultsAnnounced(q, turn(q, e, j, n))
    ensures ResultsAnnounced(p, Run(emails, i, p, turn))
    decreases |emails| - i
  {
    if i < |emails| {
      var p1 := turn(p, emails[i], i, |emails|);
      RunResults(emails, i + 1, p1, turn);
      var q := Run(emails, i + 1, p1, turn);
      ChainSuffix(LabeledResults(p.events), LabeledResults(p1.events), LabeledResults(q.events), p.results, p1.results, q.results);
    }
  }

  /** A loop none of whose turns adds a `'skipped'` event adds none. */
  lemma {:induction false} RunNoSkip(emails: seq<EmailSummary>, i: nat, p: Progress, turn: Turner)
    requires i <= |emails|
    requires forall q, e, j, n :: WithStatus(turn(q, e, j, n).events, Skipped) == WithStatus(q.events, Skipped)
    ensures WithStatus(Run(emails, i, p, turn).events, Skipped) == WithStatus(p.events, Skipped)
    decreases |emails| - i
  {
    if i < |emails| {
      RunNoSkip(emails, i + 1, turn(p, emails[i], i, |emails|), turn);
    }
  }

  /** Every email of the list is in the trash. */
  predicate AllTrashed(emails: seq<EmailSummary>, trashed: set<string>) {
    forall m :: 0 <= m < |emails| ==> emails[m].id in trashed
  }

  /** Two extensions, each announcing what it adds, make one. */
  lemma ChainSuffix<T>(a0: seq<T>, a1: seq<T>, a2: seq<T>, r0: seq<T>, r1: seq<T>, r2: seq<T>)
    requires |r0| <= |r1| && r1[..|r0|] == r0 && a1 == a0 + r1[|r0|..]
    requires |r1| <= |r2| && r2[..|r1|] == r1 && a2 == a1 + r2[|r1|..]
    ensures |r0| <= |r2| && r2[..|r0|] == r0 && a2 == a0 + r2[|r0|..]
  {
    SuffixSplit(r0, r1, r2);
  }

  class Labeller {
    const mailbox: Mailbox
    const store: FileStateStore
    const classifier: Classifier
    const settings: Settings
    /** The memoised `labelMap` of the closure; `None` is `null`. */
    var labelMap: Option<StrMap>
    /** The progress events delivered to `onProgress`, in order. */
    var events: seq<ProgressInfo>
    /** The ids of the emails given to the classifier, in order. */
    var classified: seq<string>

    constructor (mailbox: Mailbox, store: FileStateStore, classifier: Classifier, settings: Settings)
      requires mailbox.ensureCalls == 0
      ensures this.mailbox == mailbox && this.store == store
      ensures this.classifier == classifier && this.settings == settings
      ensures labelMap == None && events == [] && classified == []
      ensures Valid()
    {
      this.mailbox := mailbox;
      this.store := store;
      this.classifier := classifier;
      this.settings := settings;
      labelMap := None;
      events := [];
      classified := [];
    }

    function State(): World
      reads this, mailbox, store
    {
      World(labelMap, mailbox.ensureCalls, mailbox.labelIndex, mailbox.trashed,
        mailbox.searches, store.file, events, classified)
    }

    /** The memo holds the provider's answer, and the provider was asked once
        if that answer is a map. */
    predicate Memo(w: World) {
      && (w.labelMap.Some? ==> mailbox.ensure(settings.labels) == Ok(w.labelMap.value))
      && (mailbox.ensure(settings.labels).Ok? ==> w.ensureCalls == if w.labelMap.Some? then 1 else 0)
    }

    predicate Valid()
      reads this, mailbox, store
    {
      Memo(State())
    }

    // ----- ensureLabels -----

    function EnsureSpec(w: World): (World, Result<StrMap, Error>) {
      if w.labelMap.Some? then (w, Ok(w.labelMap.value))
      else
        var r := mailbox.ensure(settings.labels);
        (w.(ensureCalls := w.ensureCalls + 1, labelMap := if r.Ok? then Some(r.value) else None), r)
    }

    method EnsureLabels() returns (r: Result<StrMap, Error>)
      requires Valid()
      modifies this, mailbox
      ensures Valid()
      ensures (State(), r) == EnsureSpec(old(State()))
    {
      if labelMap.None? {
        var created := mailbox.EnsureLabelsExist(settings.labels);
        if created.Err? {
          return Err(created.error);
        }
        labelMap := Some(created.value);
      }
      r := Ok(labelMap.value);
    }

    // ----- one email -----

    /** `stateStore.markProcessed([email.id])` */
    function Marking(p: Progress, email: EmailSummary, now: string): (Progress, Option<Error>) {
      var (file, failure) := MarkStep(p.file, [email.id], now, store.maxProcessedIds, store.writable);
      (p.(file := file), failure)
    }

    /** Classify, apply the label if it resolves to a truthy id, then mark
        processed; the first throw ends the attempt. */
    function Labelling(p: Progress, email: EmailSummary, i: nat, total: nat, labels: StrMap, now: string): (Progress, Option<Error>) {
      var p := p.(classified := p.classified + [email.id]);
      match classifier(email, settings.labels, settings.classificationPrompt)
      case Err(e) => (p, Some(e))
      case Ok(c) =>
        var labelId := Get(labels, c.labelName);
        if Truthy(labelId) then
          var (index, failure) := ApplyLabelStep(p.index, mailbox.unreachable, email.id, labelId.value);
          if failure.Some? then (p, failure)
          else
            Marking(p.(index := index, results := p.results + [LabelResult(email.id, c.labelName)],
                       events := p.events + [Event(email, i, total, Labeled, Some(c.labelName), None)]), email, now)
        else Marking(p, email, now)
    }

    /** The `try` body: with `checkLabelled`, an email that already carries
        one of the labels is marked processed and skipped unclassified. */
    function Attempt(p: Progress, email: EmailSummary, i: nat, total: nat, labels: StrMap, checkLabelled: bool, now: string): (Progress, Option<Error>) {
      if !checkLabelled then Labelling(p, email, i, total, labels, now)
      else
        match HasLabelsResult(p.index, mailbox.unreachable, email.id, Values(labels))
        case Err(e) => (p, Some(e))
        case Ok(already) =>
          if !already then Labelling(p, email, i, total, labels, now)
          else
            var (q, failure) := Marking(p, email, now);
            if failure.Some? then (q, failure)
            else (q.(events := q.events + [Event(email, i, total, Skipped, None, None)]), None)
    }

    /** One turn of the loop: the `'processing'` event, the attempt, and an
        `'error'` event if the attempt threw. */
    function EmailStep(p: Progress, email: EmailSummary, i: nat, total: nat, labels: StrMap, checkLabelled: bool, now: string): Progress {
      var started := p.(events := p.events + [Event(email, i, total, Processing, None, None)]);
      var (q, failure) := Attempt(started, email, i, total, labels, checkLabelled, now);
      Turn(q, email, i, total, failure)
    }

    /** The turn of the loop, for the label map, the check and the clock. */
    function Turns(labels: StrMap, checkLabelled: bool, now: string): Turner {
      (p: Progress, email: EmailSummary, i: nat, total: nat) => EmailStep(p, email, i, total, labels, checkLabelled, now)
    }

    /** The loop from the `i`-th candidate on. */
    function RunFrom(emails: seq<EmailSummary>, i: nat, p: Progress, labels: StrMap, checkLabelled: bool, now: string): Progress
      requires i <= |emails|
    {
      Run(emails, i, p, Turns(labels, checkLabelled, now))
    }

    function Pass(w: World, emails: seq<EmailSummary>, labels: StrMap, checkLabelled: bool, now: string): (World, Result<ProcessResult, Error>) {
      var p := RunFrom(emails, 0, Enter(w), labels, checkLabelled, now);
      (Leave(w, p), Ok(ProcessResult(|p.results|, p.results)))
    }

    // ----- processNewEmails -----

    function ProcessNewOptions(maxResults: Option<nat>): GetEmailsOptions {
      GetEmailsOptions(Some(maxResults.GetOr(DefaultMaxResults)), None, Some(Names(settings.labels)), None)
    }

    function ProcessNewSpec(w: World, maxResults: Option<nat>, now: string): (World, Result<ProcessResult, Error>) {
      var (w1, labels) := EnsureSpec(w);
      if labels.Err? then (w1, Err(labels.error))
      else
        var options := ProcessNewOptions(maxResults);
        var w2 := w1.(searches := w1.searches + [options]);
        match mailbox.search(options)
        case Err(e) => (w2, Err(e))
        case Ok(all) =>
          match LoadState(w2.file)
          case Err(e) => (w2, Err(e))
          case Ok(st) => Pass(w2, Candidates(all, NewIds(st.processedIds, Ids(all))), labels.value, false, now)
    }

    // ----- backfill -----

    function BackfillSearch(options: BackfillOptions): GetEmailsOptions {
      GetEmailsOptions(Some(options.maxResults.GetOr(BackfillMaxResults)), Some(options.query.GetOr(BackfillQuery)), None, None)
    }

    function BackfillSpec(w: World, options: BackfillOptions, now: string): (World, Result<ProcessResult, Error>) {
      var force := options.force.GetOr(false);
      var (w1, labels) := EnsureSpec(w);
      if labels.Err? then (w1, Err(labels.error))
      else
        var search := BackfillSearch(options);
        var w2 := w1.(searches := w1.searches + [search]);
        match mailbox.search(search)
        case Err(e) => (w2, Err(e))
        case Ok(all) =>
          if force then Pass(w2, all, labels.value, false, now)
          else
            match LoadState(w2.file)
            case Err(e) => (w2, Err(e))
            case Ok(st) => Pass(w2, Candidates(all, NewIds(st.processedIds, Ids(all))), labels.value, true, now)
    }

    // ----- cleanup -----

    /** Trash the `j`-th email on; the first failure stops. */
    function TrashFrom(trashed: set<string>, emails: seq<EmailSummary>, j: nat): (set<string>, Option<Error>)
      requires j <= |emails|
      decreases |emails| - j
    {
      if j == |emails| then (trashed, None)
      else
        var (t, failure) := TrashStep(trashed, mailbox.unreachable, emails[j].id);
        if failure.Some? then (t, failure) else TrashFrom(t, emails, j + 1)
    }

    /** The rule loop from the `k`-th rule on; any failure aborts it. */
    function CleanupFrom(rules: seq<ConfigSchema.CleanupRule>, k: nat, ids: StrMap, w: World, acc: CleanupResult, cutoffFor: real -> string): (World, Result<CleanupResult, Error>)
      requires k <= |rules|
      decreases |rules| - k
    {
      if k == |rules| then (w, Ok(acc))
      else
        var rule := rules[k];
        if !Truthy(Get(ids, rule.labelName)) then CleanupFrom(rules, k + 1, ids, w, acc, cutoffFor)
        else
          var options := RuleOptions(rule, cutoffFor);
          var w1 := w.(searches := w.searches + [options]);
          match mailbox.search(options)
          case Err(e) => (w1, Err(e))
          case Ok(emails) =>
            var (trashed, failure) := TrashFrom(w1.trashed, emails, 0);
            if failure.Some? then (w1.(trashed := trashed), Err(failure.value))
            else
              CleanupFrom(rules, k + 1, ids, w1.(trashed := trashed),
                CleanupResult(acc.deleted + |emails|, acc.byLabel[rule.labelName := |emails|]), cutoffFor)
    }

    function CleanupSpec(w: World, cutoffFor: real -> string): (World, Result<CleanupResult, Error>) {
      match mailbox.listing
      case Err(e) => (w, Err(e))
      case Ok(labels) =>
        CleanupFrom(settings.cleanupRules.GetOr([]), 0, FromPairs(Pairs(labels)), w, CleanupResult(0, map[]), cutoffFor)
    }

    // ----- what one email does -----

    /** Marking is the last thing an attempt does, so when an attempt does not
        throw the email's id was recorded, and when it throws the file is as
        before. */
    predicate MarkedUnlessFailed(p: Progress, q: Progress, email: EmailSummary, now: string, failure: Option<Error>) {
      var marked := MarkStep(p.file, [email.id], now, store.maxProcessedIds, store.writable);
      && (failure.None? ==> marked.1.None? && q.file == marked.0)
      && (failure.Some? ==> q.file == p.file)
    }

    lemma LabellingFacts(p: Progress, email: EmailSummary, i: nat, total: nat, labels: StrMap, now: string)
      ensures var (q, failure) := Labelling(p, email, i, total, labels, now);
        && LabelTrace(p, q, email, i, total)
        && MarkedUnlessFailed(p, q, email, now, failure)
        && q.classified == p.classified + [email.id]
    {
      var p1 := p.(classified := p.classified + [email.id]);
      match classifier(email, settings.labels, settings.classificationPrompt)
      case Err(e) =>
      case Ok(c) =>
        var labelId := Get(labels, c.labelName);
        if Truthy(labelId) {
          var (index, failure) := ApplyLabelStep(p1.index, mailbox.unreachable, email.id, labelId.value);
          if failure.None? {
            var p2 := p1.(index := index, results := p1.results + [LabelResult(email.id, c.labelName)],
                          events := p1.events + [Event(email, i, total, Labeled, Some(c.labelName), None)]);
            assert Labelling(p, email, i, total, labels, now) == Marking(p2, email, now);
            assert LabelTrace(p, Marking(p2, email, now).0, email, i, total);
          }
        }
    }

    lemma AttemptFacts(p: Progress, email: EmailSummary, i: nat, total: nat, labels: StrMap, checkLabelled: bool, now: string)
      ensures var (q, failure) := Attempt(p, email, i, total, labels, checkLabelled, now);
        && AttemptTrace(p, q, email, i, total)
        && MarkedUnlessFailed(p, q, email, now, failure)
    {
      LabellingFacts(p, email, i, total, labels, now);
    }

    /** One turn of the loop announces the email with a `'processing'` event
        numbered `i + 1` of `total` before anything else, and with no other
        `'processing'` event. */
    lemma StepEvents(p: Progress, email: EmailSummary, i: nat, total: nat, labels: StrMap, checkLabelled: bool, now: string)
      ensures var q := EmailStep(p, email, i, total, labels, checkLabelled, now);
        && p.events + [Event(email, i, total, Processing, None, None)] <= q.events
        && WithStatus(q.events, Processing) == WithStatus(p.events, Processing) + [Event(email, i, total, Processing, None, None)]
    {
      var started := p.(events := p.events + [Event(email, i, total, Processing, None, None)]);
      var (q, failure) := Attempt(started, email, i, total, labels, checkLabelled, now);
      AttemptFacts(started, email, i, total, labels, checkLabelled, now);
      TurnAnnounces(p, q, email, i, total, failure);
    }

    /** The `'labeled'` event of a turn, if any, announces the one result it
        adds. */
    lemma StepResults(p: Progress, email: EmailSummary, i: nat, total: nat, labels: StrMap, checkLabelled: bool, now: string)
      ensures var q := EmailStep(p, email, i, total, labels, checkLabelled, now);
        && |p.results| <= |q.results| && q.results[..|p.results|] == p.results
        && LabeledResults(q.events) == LabeledResults(p.events) + q.results[|p.results|..]
    {
      var started := p.(events := p.events + [Event(email, i, total, Processing, None, None)]);
      var (q, failure) := Attempt(started, email, i, total, labels, checkLabelled, now);
      AttemptFacts(started, email, i, total, labels, checkLabelled, now);
      TurnCounts(p, q, email, i, total, failure);
    }

    /** The last event of a turn is an `'error'` exactly when the attempt
        threw, and the email is marked processed exactly when it did not. */
    lemma StepMarks(p: Progress, email: EmailSummary, i: nat, total: nat, labels: StrMap, checkLabelled: bool, now: string)
      ensures var q := EmailStep(p, email, i, total, labels, checkLabelled, now);
        var started := p.(events := p.events + [Event(email, i, total, Processing, None, None)]);
        var failure := Attempt(started, email, i, total, labels, checkLabelled, now).1;
        && |q.events| > 0
        && (q.events[|q.events| - 1].status == Failed <==> failure.Some?)
        && MarkedUnlessFailed(p, q, email, now, failure)
    {
      var start := Event(email, i, total, Processing, None, None);
      var started := p.(events := p.events + [start]);
      var (q, failure) := Attempt(started, email, i, total, labels, checkLabelled, now);
      AttemptFacts(started, email, i, total, labels, checkLabelled, now);
      if failure.None? {
        assert AttemptTrace(started, q, email, i, total);
        assert q.events[|q.events| - 1].status != Failed;
      }
    }

    /** A label result is added exactly when the classifier answers, its
        label resolves to a truthy id and `applyLabel` succeeds; the email
        then carries that id. Otherwise no label is applied. */
    lemma LabellingResult(p: Progress, email: EmailSummary, i: nat, total: nat, labels: StrMap, now: string)
      ensures var q := Labelling(p, email, i, total, labels, now).0;
        var c := classifier(email, settings.labels, settings.classificationPrompt);
        && (q.results != p.results <==> c.Ok? && Truthy(Get(labels, c.value.labelName)) && email.id !in mailbox.unreachable)
        && (q.results != p.results ==>
              q.results == p.results + [LabelResult(email.id, c.value.labelName)]
              && Get(labels, c.value.labelName).value in LabelsOf(q.index, email.id))
        && (q.results == p.results ==> q.index == p.index)
    {
    }

    /** With the check on, an email already carrying one of the label ids is
        never classified: it is marked processed and announced as
        `'skipped'`, or the marking throws. */
    lemma AlreadyLabelledIsSkipped(p: Progress, email: EmailSummary, i: nat, total: nat, labels: StrMap, now: string)
      requires email.id !in mailbox.unreachable
      requires exists j :: 0 <= j < |labels.entries| && labels.entries[j].1 in LabelsOf(p.index, email.id)
      ensures var (q, failure) := Attempt(p, email, i, total, labels, true, now);
        && q.classified == p.classified && q.results == p.results && q.index == p.index
        && (failure.None? ==> q.events == p.events + [Event(email, i, total, Skipped, None, None)])
        && (failure.Some? ==> q.events == p.events)
    {
      var j :| 0 <= j < |labels.entries| && labels.entries[j].1 in LabelsOf(p.index, email.id);
      assert Values(labels)[j] in LabelsOf(p.index, email.id);
    }

    /** With the check on, an email carrying none of the label ids goes on
        to classification exactly as without the check: it is classified. */
    lemma UnlabelledIsClassified(p: Progress, email: EmailSummary, i: nat, total: nat, labels: StrMap, now: string)
      requires email.id !in mailbox.unreachable
      requires forall j :: 0 <= j < |labels.entries| ==> labels.entries[j].1 !in LabelsOf(p.index, email.id)
      ensures Attempt(p, email, i, total, labels, true, now) == Labelling(p, email, i, total, labels, now)
      ensures Attempt(p, email, i, total, labels, true, now).0.classified == p.classified + [email.id]
    {
      LabellingFacts(p, email, i, total, labels, now);
    }

    /** With the check on, an attempt announces `'skipped'` only for a
        reachable email that already carries one of the label ids, and
        then classifies nothing. */
    lemma SkippedOnlyIfLabelled(p: Progress, email: EmailSummary, i: nat, total: nat, labels: StrMap, now: string)
      ensures var (q, failure) := Attempt(p, email, i, total, labels, true, now);
        q.events == p.events + [Event(email, i, total, Skipped, None, None)] ==>
          && email.id !in mailbox.unreachable
          && (exists j :: 0 <= j < |labels.entries| && labels.entries[j].1 in LabelsOf(p.index, email.id))
          && q.classified == p.classified
    {
      var (q, failure) := Attempt(p, email, i, total, labels, true, now);
      var has := HasLabelsResult(p.index, mailbox.unreachable, email.id, Values(labels));
      if has.Ok? && !has.value {
        // the attempt is a labelling, whose only possible event is `'labeled'`
        LabellingFacts(p, email, i, total, labels, now);
        if |q.events| == |p.events| + 1 {
          assert q.events[|p.events|].status == Labeled;
        }
      } else if has.Ok? {
        var j :| 0 <= j < |Values(labels)| && Values(labels)[j] in LabelsOf(p.index, email.id);
        assert labels.entries[j].1 in LabelsOf(p.index, email.id);
      }
    }

    /** Without the check, nothing is ever skipped. */
    lemma UncheckedNeverSkips(p: Progress, email: EmailSummary, i: nat, total: nat, labels: StrMap, now: string)
      ensures WithStatus(EmailStep(p, email, i, total, labels, false, now).events, Skipped) == WithStatus(p.events, Skipped)
    {
      var started := p.(events := p.events + [Event(email, i, total, Processing, None, None)]);
      var (q, failure) := Labelling(started, email, i, total, labels, now);
      LabellingFacts(started, email, i, total, labels, now);
      TurnNoSkip(p, q, email, i, total, failure);
    }

    // ----- what a pass does -----

    /** A pass announces every candidate once, in order, numbered from 1 with
        the number of candidates as total. */
    lemma RunAnnouncesEach(emails: seq<EmailSummary>, i: nat, p: Progress, labels: StrMap, checkLabelled: bool, now: string)
      requires i <= |emails|
      ensures WithStatus(RunFrom(emails, i, p, labels, checkLabelled, now).events, Processing)
           == WithStatus(p.events, Processing) + Started(emails, i)
    {
      var turn := Turns(labels, checkLabelled, now);
      forall q, e, j, n
        ensures WithStatus(turn(q, e, j, n).events, Processing) == WithStatus(q.events, Processing) + [Event(e, j, n, Processing, None, None)]
      {
        StepEvents(q, e, j, n, labels, checkLabelled, now);
      }
      RunAnnounces(emails, i, p, turn);
    }

    /** The `'labeled'` events of a pass announce exactly the results it
        returns, in order. */
    lemma RunResultsAnnounced(emails: seq<EmailSummary>, i: nat, p: Progress, labels: StrMap, checkLabelled: bool, now: string)
      requires i <= |emails|
      ensures var q := RunFrom(emails, i, p, labels, checkLabelled, now);
        && |p.results| <= |q.results| && q.results[..|p.results|] == p.results
        && LabeledResults(q.events) == LabeledResults(p.events) + q.results[|p.results|..]
    {
      var turn := Turns(labels, checkLabelled, now);
      forall q, e, j, n ensures ResultsAnnounced(q, turn(q, e, j, n)) {
        StepResults(q, e, j, n, labels, checkLabelled, now);
      }
      RunResults(emails, i, p, turn);
    }

    /** Without the check, a pass skips nothing. */
    lemma UncheckedRunNeverSkips(emails: seq<EmailSummary>, i: nat, p: Progress, labels: StrMap, now: string)
      requires i <= |emails|
      ensures WithStatus(RunFrom(emails, i, p, labels, false, now).events, Skipped) == WithStatus(p.events, Skipped)
    {
      var turn := Turns(labels, false, now);
      forall q, e, j, n ensures WithStatus(turn(q, e, j, n).events, Skipped) == WithStatus(q.events, Skipped) {
        UncheckedNeverSkips(q, e, j, n, labels, now);
      }
      RunNoSkip(emails, i, p, turn);
    }

    // ----- what the operations do -----

    /** The emails a search returns; nothing when it throws. */
    function Fetched(options: GetEmailsOptions): seq<EmailSummary> {
      match mailbox.search(options)
      case Ok(emails) => emails
      case Err(_) => []
    }

    /** The ids in the state file; none when it cannot be read. */
    function StoredIds(file: StoredFile): seq<string> {
      match LoadState(file)
      case Ok(st) => st.processedIds
      case Err(_) => []
    }

    /** `ensureLabels` asks the provider only while no map is memoised, and
        once it has a map it answers with it and asks no more: with a map,
        the provider was asked exactly once. */
    lemma EnsureLabelsMemoised(w: World)
      requires Memo(w)
      ensures var (w1, r) := EnsureSpec(w);
        && Memo(w1)
        && r == mailbox.ensure(settings.labels)
        && (r.Ok? ==> w1.labelMap == Some(r.value) && w1.ensureCalls == 1)
        && (r.Ok? ==> EnsureSpec(w1) == (w1, r))
        && w1.(labelMap := w.labelMap, ensureCalls := w.ensureCalls) == w
    {
    }

    /** `processNewEmails` throws, with no event and no change to the
        mailbox's labels or the state file, exactly when `ensureLabels`,
        the search or `filterUnprocessed` throws. */
    lemma ProcessNewAborts(w: World, maxResults: Option<nat>, now: string)
      ensures var (w2, r) := ProcessNewSpec(w, maxResults, now);
        && (r.Err? <==> EnsureSpec(w).1.Err? || mailbox.search(ProcessNewOptions(maxResults)).Err? || w.file.Corrupt?)
        && (r.Err? ==> w2.events == w.events && w2.index == w.index && w2.file == w.file && w2.classified == w.classified)
    {
    }

    /** A successful `processNewEmails` made one search, for at most 50
        emails unless told otherwise and excluding every configured label;
        it announced exactly the fetched emails whose ids were not stored, in
        the provider's order; it skipped none; and it returns as many
        results as it announced `'labeled'` events, the same ones. */
    lemma ProcessNewRun(w: World, maxResults: Option<nat>, now: string)
      requires Memo(w)
      ensures var (w2, r) := ProcessNewSpec(w, maxResults, now);
        var all := Fetched(ProcessNewOptions(maxResults));
        var emails := Candidates(all, NewIds(StoredIds(w.file), Ids(all)));
        && Memo(w2)
        && (r.Ok? ==>
              && w2.searches == w.searches + [GetEmailsOptions(Some(maxResults.GetOr(50)), None, Some(Names(settings.labels)), None)]
              && (forall e :: e in emails <==> e in all && e.id !in StoredIds(w.file))
              && WithStatus(w2.events, Processing) == WithStatus(w.events, Processing) + Started(emails, 0)
              && WithStatus(w2.events, Skipped) == WithStatus(w.events, Skipped)
              && r.value.processed == |r.value.results|
              && LabeledResults(w2.events) == LabeledResults(w.events) + r.value.results)
    {
      var (w1, labels) := EnsureSpec(w);
      var all := Fetched(ProcessNewOptions(maxResults));
      var emails := Candidates(all, NewIds(StoredIds(w.file), Ids(all)));
      if labels.Ok? && mailbox.search(ProcessNewOptions(maxResults)).Ok? && !w.file.Corrupt? {
        var w2 := w1.(searches := w1.searches + [ProcessNewOptions(maxResults)]);
        CandidatesUnprocessed(all, StoredIds(w.file));
        RunAnnouncesEach(emails, 0, Enter(w2), labels.value, false, now);
        RunResultsAnnounced(emails, 0, Enter(w2), labels.value, false, now);
        UncheckedRunNeverSkips(emails, 0, Enter(w2), labels.value, now);
      }
    }

    /** `backfill` throws, with no event, exactly when `ensureLabels` or the
        search throws, or, without `force`, when the state file cannot be
        read; with `force` an unreadable state file does not stop it. */
    lemma BackfillAborts(w: World, options: BackfillOptions, now: string)
      ensures var (w2, r) := BackfillSpec(w, options, now);
        && (r.Err? <==> EnsureSpec(w).1.Err? || mailbox.search(BackfillSearch(options)).Err?
                        || (!options.force.GetOr(false) && w.file.Corrupt?))
        && (r.Err? ==> w2.events == w.events && w2.index == w.index && w2.file == w.file && w2.classified == w.classified)
    {
    }

    /** A successful `backfill` made one search, for 250 emails of
        `in:inbox -label:SENT` unless told otherwise; with `force` it
        announced every fetched email and skipped none, without it only
        those whose ids were not stored; and its results are the ones its
        `'labeled'` events announced. */
    lemma BackfillRun(w: World, options: BackfillOptions, now: string)
      requires Memo(w)
      ensures var (w2, r) := BackfillSpec(w, options, now);
        var all := Fetched(BackfillSearch(options));
        var emails := if options.force.GetOr(false) then all else Candidates(all, NewIds(StoredIds(w.file), Ids(all)));
        && Memo(w2)
        && (r.Ok? ==>
              && w2.searches == w.searches + [GetEmailsOptions(Some(options.maxResults.GetOr(250)), Some(options.query.GetOr("in:inbox -label:SENT")), None, None)]
              && (!options.force.GetOr(false) ==> forall e :: e in emails <==> e in all && e.id !in StoredIds(w.file))
              && WithStatus(w2.events, Processing) == WithStatus(w.events, Processing) + Started(emails, 0)
              && (options.force.GetOr(false) ==> WithStatus(w2.events, Skipped) == WithStatus(w.events, Skipped))
              && r.value.processed == |r.value.results|
              && LabeledResults(w2.events) == LabeledResults(w.events) + r.value.results)
    {
      var force := options.force.GetOr(false);
      var (w1, labels) := EnsureSpec(w);
      var all := Fetched(BackfillSearch(options));
      var emails := if force then all else Candidates(all, NewIds(StoredIds(w.file), Ids(all)));
      if labels.Ok? && mailbox.search(BackfillSearch(options)).Ok? && (force || !w.file.Corrupt?) {
        var w2 := w1.(searches := w1.searches + [BackfillSearch(options)]);
        CandidatesUnprocessed(all, StoredIds(w.file));
        RunAnnouncesEach(emails, 0, Enter(w2), labels.value, !force, now);
        RunResultsAnnounced(emails, 0, Enter(w2), labels.value, !force, now);
        if force {
          UncheckedRunNeverSkips(emails, 0, Enter(w2), labels.value, now);
        }
      }
    }

    /** A rule takes part when the listed labels give its label a truthy id. */
    predicate Resolves(ids: StrMap, rule: ConfigSchema.CleanupRule) {
      Truthy(Get(ids, rule.labelName))
    }

    /** A rule's search answers and every email it returns can be trashed. */
    predicate RuleSucceeds(rule: ConfigSchema.CleanupRule, cutoffFor: real -> string) {
      var emails := Fetched(RuleOptions(rule, cutoffFor));
      && mailbox.search(RuleOptions(rule, cutoffFor)).Ok?
      && forall m :: 0 <= m < |emails| ==> emails[m].id !in mailbox.unreachable
    }

    /** The emails the rules from the `k`-th on delete, counted per rule. */
    function RulesDeleted(rules: seq<ConfigSchema.CleanupRule>, k: nat, ids: StrMap, cutoffFor: real -> string): nat
      requires k <= |rules|
      decreases |rules| - k
    {
      if k == |rules| then 0
      else (if Resolves(ids, rules[k]) then |Fetched(RuleOptions(rules[k], cutoffFor))| else 0)
           + RulesDeleted(rules, k + 1, ids, cutoffFor)
    }

    /** The searches the rules from the `k`-th on make: one per rule that
        takes part. */
    function RuleSearches(rules: seq<ConfigSchema.CleanupRule>, k: nat, ids: StrMap, cutoffFor: real -> string): seq<GetEmailsOptions>
      requires k <= |rules|
      decreases |rules| - k
    {
      if k == |rules| then []
      else (if Resolves(ids, rules[k]) then [RuleOptions(rules[k], cutoffFor)] else [])
           + RuleSearches(rules, k + 1, ids, cutoffFor)
    }

    /** Trashing stops at the first email that throws; until then every
        email is trashed. */
    lemma {:induction false} TrashFromFacts(trashed: set<string>, emails: seq<EmailSummary>, j: nat)
      requires j <= |emails|
      ensures var (t, failure) := TrashFrom(trashed, emails, j);
        && trashed <= t
        && (failure.None? <==> forall m :: j <= m < |emails| ==> emails[m].id !in mailbox.unreachable)
        && (failure.None? ==> forall m :: j <= m < |emails| ==> emails[m].id in t)
      decreases |emails| - j
    {
      if j < |emails| {
        var (t, failure) := TrashStep(trashed, mailbox.unreachable, emails[j].id);
        if failure.None? {
          TrashFromFacts(t, emails, j + 1);
        }
      }
    }

    /** The rule loop only adds to the trash and the search log. */
    lemma {:induction false} CleanupFromFrame(rules: seq<ConfigSchema.CleanupRule>, k: nat, ids: StrMap, w: World, acc: CleanupResult, cutoffFor: real -> string)
      requires k <= |rules|
      ensures var w2 := CleanupFrom(rules, k, ids, w, acc, cutoffFor).0;
        && w.trashed <= w2.trashed
        && w2.(trashed := w.trashed, searches := w.searches) == w
      decreases |rules| - k
    {
      if k < |rules| {
        var rule := rules[k];
        if !Resolves(ids, rule) {
          CleanupFromFrame(rules, k + 1, ids, w, acc, cutoffFor);
        } else {
          var options := RuleOptions(rule, cutoffFor);
          var w1 := w.(searches := w.searches + [options]);
          if mailbox.search(options).Ok? {
            var emails := mailbox.search(options).value;
            var (trashed, failure) := TrashFrom(w1.trashed, emails, 0);
            TrashFromFacts(w1.trashed, emails, 0);
            if failure.None? {
              var acc' := CleanupResult(acc.deleted + |emails|, acc.byLabel[rule.labelName := |emails|]);
              CleanupFromFrame(rules, k + 1, ids, w1.(trashed := trashed), acc', cutoffFor);
            }
          }
        }
      }
    }

    /** The rule loop succeeds exactly when every rule that takes part
        succeeds. Rules whose label does not resolve are passed over. */
    lemma {:induction false} CleanupFromSucceeds(rules: seq<ConfigSchema.CleanupRule>, k: nat, ids: StrMap, w: World, acc: CleanupResult, cutoffFor: real -> string)
      requires k <= |rules|
      ensures CleanupFrom(rules, k, ids, w, acc, cutoffFor).1.Ok?
              <==> forall j :: k <= j < |rules| && Resolves(ids, rules[j]) ==> RuleSucceeds(rules[j], cutoffFor)
      decreases |rules| - k
    {
      if k < |rules| {
        var rule := rules[k];
        if !Resolves(ids, rule) {
          CleanupFromSucceeds(rules, k + 1, ids, w, acc, cutoffFor);
        } else {
          var options := RuleOptions(rule, cutoffFor);
          var w1 := w.(searches := w.searches + [options]);
          if mailbox.search(options).Ok? {
            var emails := mailbox.search(options).value;
            var (trashed, failure) := TrashFrom(w1.trashed, emails, 0);
            TrashFromFacts(w1.trashed, emails, 0);
            if failure.None? {
              var acc' := CleanupResult(acc.deleted + |emails|, acc.byLabel[rule.labelName := |emails|]);
              CleanupFromSucceeds(rules, k + 1, ids, w1.(trashed := trashed), acc', cutoffFor);
            } else {
              assert Fetched(options) == emails;
              assert !RuleSucceeds(rules[k], cutoffFor);
            }
          } else {
            assert !RuleSucceeds(rules[k], cutoffFor);
          }
        }
      }
    }

    /** A successful rule loop made one search per rule that takes part and
        counted every email they returned in `deleted`. */
    lemma {:induction false} CleanupFromFacts(rules: seq<ConfigSchema.CleanupRule>, k: nat, ids: StrMap, w: World, acc: CleanupResult, cutoffFor: real -> string)
      requires k <= |rules|
      ensures var (w2, r) := CleanupFrom(rules, k, ids, w, acc, cutoffFor);
        && (r.Ok? ==> w2.searches == w.searches + RuleSearches(rules, k, ids, cutoffFor))
        && (r.Ok? ==> r.value.deleted == acc.deleted + RulesDeleted(rules, k, ids, cutoffFor))
      decreases |rules| - k
    {
      if k < |rules| {
        var rule := rules[k];
        if !Resolves(ids, rule) {
          CleanupFromFacts(rules, k + 1, ids, w, acc, cutoffFor);
        } else {
          var options := RuleOptions(rule, cutoffFor);
          var w1 := w.(searches := w.searches + [options]);
          if mailbox.search(options).Ok? {
            var emails := mailbox.search(options).value;
            var (trashed, failure) := TrashFrom(w1.trashed, emails, 0);
            if failure.None? {
              var acc' := CleanupResult(acc.deleted + |emails|, acc.byLabel[rule.labelName := |emails|]);
              CleanupFromFacts(rules, k + 1, ids, w1.(trashed := trashed), acc', cutoffFor);
            }
          }
        }
      }
    }

    /** When the rule loop succeeds, every email its searches returned is in
        the trash. */
    lemma {:induction false} CleanupFromTrashes(rules: seq<ConfigSchema.CleanupRule>, k: nat, ids: StrMap, w: World, acc: CleanupResult, cutoffFor: real -> string)
      requires k <= |rules|
      ensures var (w2, r) := CleanupFrom(rules, k, ids, w, acc, cutoffFor);
        r.Ok? ==> forall j :: k <= j < |rules| && Resolves(ids, rules[j]) ==> AllTrashed(Fetched(RuleOptions(rules[j], cutoffFor)), w2.trashed)
      decreases |rules| - k
    {
      if k < |rules| {
        var rule := rules[k];
        if !Resolves(ids, rule) {
          CleanupFromTrashes(rules, k + 1, ids, w, acc, cutoffFor);
        } else {
          var options := RuleOptions(rule, cutoffFor);
          var w1 := w.(searches := w.searches + [options]);
          if mailbox.search(options).Ok? {
            var emails := mailbox.search(options).value;
            var (trashed, failure) := TrashFrom(w1.trashed, emails, 0);
            TrashFromFacts(w1.trashed, emails, 0);
            if failure.None? {
              var acc' := CleanupResult(acc.deleted + |emails|, acc.byLabel[rule.labelName := |emails|]);
              CleanupFromTrashes(rules, k + 1, ids, w1.(trashed := trashed), acc', cutoffFor);
              CleanupFromFrame(rules, k + 1, ids, w1.(trashed := trashed), acc', cutoffFor);
              assert Fetched(options) == emails;
            }
          }
        }
      }
    }

    /** The count of the last rule from the `k`-th on that is for `name` and
        takes part, if there is one. */
    function LastCount(rules: seq<ConfigSchema.CleanupRule>, k: nat, ids: StrMap, cutoffFor: real -> string, name: string): Option<nat>
      requires k <= |rules|
      decreases |rules| - k
    {
      if k == |rules| then None
      else
        var later := LastCount(rules, k + 1, ids, cutoffFor, name);
        if later.Some? then later
        else if rules[k].labelName == name && Resolves(ids, rules[k]) then Some(|Fetched(RuleOptions(rules[k], cutoffFor))|)
        else None
    }

    /** Each label's entry in `byLabel` is the count of the last rule for it
        that takes part; labels without such a rule keep their entry. */
    lemma {:induction false} CleanupFromByLabel(rules: seq<ConfigSchema.CleanupRule>, k: nat, ids: StrMap, w: World, acc: CleanupResult, cutoffFor: real -> string)
      requires k <= |rules|
      ensures var r := CleanupFrom(rules, k, ids, w, acc, cutoffFor).1;
        r.Ok? ==> forall name :: Lookup(r.value.byLabel, name)
                              == if LastCount(rules, k, ids, cutoffFor, name).Some? then LastCount(rules, k, ids, cutoffFor, name)
                                 else Lookup(acc.byLabel, name)
      decreases |rules| - k
    {
      if k < |rules| {
        var rule := rules[k];
        if !Resolves(ids, rule) {
          CleanupFromByLabel(rules, k + 1, ids, w, acc, cutoffFor);
        } else {
          var options := RuleOptions(rule, cutoffFor);
          var w1 := w.(searches := w.searches + [options]);
          if mailbox.search(options).Ok? {
            var emails := mailbox.search(options).value;
            var (trashed, failure) := TrashFrom(w1.trashed, emails, 0);
            if failure.None? {
              var acc' := CleanupResult(acc.deleted + |emails|, acc.byLabel[rule.labelName := |emails|]);
              CleanupFromByLabel(rules, k + 1, ids, w1.(trashed := trashed), acc', cutoffFor);
              assert Fetched(options) == emails;
            }
          }
        }
      }
    }

    /** `cleanup` changes nothing but the trashed set and the search log. It
        throws exactly when listing the labels throws or a rule whose label
        resolves fails: there is no `try`. A label resolves to the id of the
        last listed label of that name. On success it made one search per
        such rule, trashed every email they returned, counts them all in
        `deleted`, and gives each label the count of its last rule. */
    lemma CleanupFacts(w: World, cutoffFor: real -> string)
      ensures var (w2, r) := CleanupSpec(w, cutoffFor);
        && w.trashed <= w2.trashed
        && w2.(trashed := w.trashed, searches := w.searches) == w
        && (mailbox.listing.Err? ==> w2 == w && r.Err?)
        && (mailbox.listing.Ok? ==>
              var rules := settings.cleanupRules.GetOr([]);
              var ids := FromPairs(Pairs(mailbox.listing.value));
              && (forall name :: Get(ids, name) == LastValue(Pairs(mailbox.listing.value), name))
              && (r.Ok? <==> forall j :: 0 <= j < |rules| && Resolves(ids, rules[j]) ==> RuleSucceeds(rules[j], cutoffFor))
              && (r.Ok? ==> w2.searches == w.searches + RuleSearches(rules, 0, ids, cutoffFor))
              && (r.Ok? ==> r.value.deleted == RulesDeleted(rules, 0, ids, cutoffFor))
              && (r.Ok? ==> forall name :: Lookup(r.value.byLabel, name) == LastCount(rules, 0, ids, cutoffFor, name))
              && (r.Ok? ==> forall j :: 0 <= j < |rules| && Resolves(ids, rules[j]) ==> AllTrashed(Fetched(RuleOptions(rules[j], cutoffFor)), w2.trashed)))
    {
      if mailbox.listing.Ok? {
        var rules := settings.cleanupRules.GetOr([]);
        var ids := FromPairs(Pairs(mailbox.listing.value));
        CleanupFromFrame(rules, 0, ids, w, CleanupResult(0, map[]), cutoffFor);
        CleanupFromSucceeds(rules, 0, ids, w, CleanupResult(0, map[]), cutoffFor);
        CleanupFromFacts(rules, 0, ids, w, CleanupResult(0, map[]), cutoffFor);
        CleanupFromTrashes(rules, 0, ids, w, CleanupResult(0, map[]), cutoffFor);
        CleanupFromByLabel(rules, 0, ids, w, CleanupResult(0, map[]), cutoffFor);
      }
    }

    // ----- the methods -----

    /** The `try` body for one email, as `Attempt` states it. */
    method TryEmail(email: EmailSummary, i: nat, total: nat, labels: StrMap, checkLabelled: bool, now: string, results0: seq<LabelResult>)
      returns (failure: Option<Error>, results: seq<LabelResult>)
      modifies this, mailbox, store
      ensures (Progress(mailbox.labelIndex, store.file, events, results, classified), failure)
           == Attempt(Progress(old(mailbox.labelIndex), old(store.file), old(events), results0, old(classified)),
                      email, i, total, labels, checkLabelled, now)
      ensures labelMap == old(labelMap) && mailbox.ensureCalls == old(mailbox.ensureCalls)
      ensures mailbox.trashed == old(mailbox.trashed) && mailbox.searches == old(mailbox.searches)
    {
      results := results0;
      if checkLabelled {
        var already := mailbox.HasLabels(email.id, Values(labels));
        if already.Err? {
          return Some(already.error), results;
        }
        if already.value {
          failure := store.MarkProcessed([email.id], now);
          if failure.Some? {
            return;
          }
          events := events + [Event(email, i, total, Skipped, None, None)];
          return;
        }
      }
      classified := classified + [email.id];
      var classification := classifier(email, settings.labels, settings.classificationPrompt);
      if classification.Err? {
        return Some(classification.error), results;
      }
      var labelName := classification.value.labelName;
      var labelId := Get(labels, labelName);
      if Truthy(labelId) {
        failure := mailbox.ApplyLabel(email.id, labelId.value);
        if failure.Some? {
          return;
        }
        results := results + [LabelResult(email.id, labelName)];
        events := events + [Event(email, i, total, Labeled, Some(labelName), None)];
      }
      failure := store.MarkProcessed([email.id], now);
    }

    /** The `for` loop over the candidates, with per-email error isolation. */
    method ProcessAll(emails: seq<EmailSummary>, labels: StrMap, checkLabelled: bool, now: string) returns (results: seq<LabelResult>)
      modifies this, mailbox, store
      ensures var p := RunFrom(emails, 0, Progress(old(mailbox.labelIndex), old(store.file), old(events), [], old(classified)), labels, checkLabelled, now);
        mailbox.labelIndex == p.index && store.file == p.file && events == p.events
        && classified == p.classified && results == p.results
      ensures labelMap == old(labelMap) && mailbox.ensureCalls == old(mailbox.ensureCalls)
      ensures mailbox.trashed == old(mailbox.trashed) && mailbox.searches == old(mailbox.searches)
    {
      ghost var start := Progress(mailbox.labelIndex, store.file, events, [], classified);
      results := [];
      for i := 0 to |emails|
        invariant RunFrom(emails, 0, start, labels, checkLabelled, now)
               == RunFrom(emails, i, Progress(mailbox.labelIndex, store.file, events, results, classified), labels, checkLabelled, now)
        invariant labelMap == old(labelMap) && mailbox.ensureCalls == old(mailbox.ensureCalls)
        invariant mailbox.trashed == old(mailbox.trashed) && mailbox.searches == old(mailbox.searches)
      {
        var email := emails[i];
        ghost var before := Progress(mailbox.labelIndex, store.file, events, results, classified);
        events := events + [Event(email, i, |emails|, Processing, None, None)];
        var failure;
        failure, results := TryEmail(email, i, |emails|, labels, checkLabelled, now, results);
        if failure.Some? {
          events := events + [Event(email, i, |emails|, Failed, None, failure)];
        }
        assert Progress(mailbox.labelIndex, store.file, events, results, classified)
            == Turns(labels, checkLabelled, now)(before, email, i, |emails|);
      }
    }

    method ProcessNewEmails(maxResults: Option<nat>, now: string) returns (r: Result<ProcessResult, Error>)
      requires Valid()
      modifies this, mailbox, store
      ensures Valid()
      ensures (State(), r) == ProcessNewSpec(old(State()), maxResults, now)
    {
      var labels := EnsureLabels();
      if labels.Err? {
        return Err(labels.error);
      }
      var fetched := mailbox.GetEmails(ProcessNewOptions(maxResults));
      if fetched.Err? {
        return Err(fetched.error);
      }
      var allEmails := fetched.value;
      var unprocessed := store.FilterUnprocessed(Ids(allEmails));
      if unprocessed.Err? {
        return Err(unprocessed.error);
      }
      var emails := Candidates(allEmails, unprocessed.value);
      var results := ProcessAll(emails, labels.value, false, now);
      r := Ok(ProcessResult(|results|, results));
    }

    method Backfill(options: BackfillOptions, now: string) returns (r: Result<ProcessResult, Error>)
      requires Valid()
      modifies this, mailbox, store
      ensures Valid()
      ensures (State(), r) == BackfillSpec(old(State()), options, now)
    {
      var force := options.force.GetOr(false);
      var labels := EnsureLabels();
      if labels.Err? {
        return Err(labels.error);
      }
      var fetched := mailbox.GetEmails(BackfillSearch(options));
      if fetched.Err? {
        return Err(fetched.error);
      }
      var emails := fetched.value;
      if !force {
        var unprocessed := store.FilterUnprocessed(Ids(emails));
        if unprocessed.Err? {
          return Err(unprocessed.error);
        }
        emails := Candidates(emails, unprocessed.value);
      }
      var results := ProcessAll(emails, labels.value, !force, now);
      r := Ok(ProcessResult(|results|, results));
    }

    method Cleanup(cutoffFor: real -> string) returns (r: Result<CleanupResult, Error>)
      requires Valid()
      modifies mailbox
      ensures Valid()
      ensures (State(), r) == CleanupSpec(old(State()), cutoffFor)
    {
      var rules := settings.cleanupRules.GetOr([]);
      var deleted := CleanupResult(0, map[]);
      var listed := mailbox.ListLabels();
      if listed.Err? {
        return Err(listed.error);
      }
      var labelIdMap := FromPairs(Pairs(listed.value));
      for k := 0 to |rules|
        invariant CleanupSpec(old(State()), cutoffFor) == CleanupFrom(rules, k, labelIdMap, State(), deleted, cutoffFor)
        invariant mailbox.ensureCalls == old(mailbox.ensureCalls)
      {
        var swept := CleanupRule(rules, k, labelIdMap, deleted, cutoffFor);
        if swept.Err? {
          return swept;
        }
        deleted := swept.value;
      }
      r := Ok(deleted);
    }

    /** One round of the rule loop: a rule whose label does not resolve is
        passed over; otherwise its search, the trashing and the counts. */
    method CleanupRule(rules: seq<ConfigSchema.CleanupRule>, k: nat, ids: StrMap, acc: CleanupResult, cutoffFor: real -> string)
      returns (r: Result<CleanupResult, Error>)
      requires k < |rules|
      modifies mailbox
      ensures r.Err? ==> (State(), r) == CleanupFrom(rules, k, ids, old(State()), acc, cutoffFor)
      ensures r.Ok? ==> CleanupFrom(rules, k, ids, old(State()), acc, cutoffFor) == CleanupFrom(rules, k + 1, ids, State(), r.value, cutoffFor)
      ensures mailbox.ensureCalls == old(mailbox.ensureCalls)
    {
      var rule := rules[k];
      var labelId := Get(ids, rule.labelName);
      if !Truthy(labelId) {
        return Ok(acc);
      }
      var fetched := mailbox.GetEmails(RuleOptions(rule, cutoffFor));
      if fetched.Err? {
        return Err(fetched.error);
      }
      var emails := fetched.value;
      var failure := TrashAll(emails);
      if failure.Some? {
        return Err(failure.value);
      }
      r := Ok(CleanupResult(acc.deleted + |emails|, acc.byLabel[rule.labelName := |emails|]));
    }

    /** `for (const email of emails) await provider.trashEmail(email.id)` */
    method TrashAll(emails: seq<EmailSummary>) returns (failure: Option<Error>)
      modifies mailbox
      ensures (mailbox.trashed, failure) == TrashFrom(old(mailbox.trashed), emails, 0)
      ensures mailbox.labelIndex == old(mailbox.labelIndex) && mailbox.searches == old(mailbox.searches)
      ensures mailbox.ensureCalls == old(mailbox.ensureCalls)
    {
      failure := None;
      for j := 0 to |emails|
        invariant TrashFrom(old(mailbox.trashed), emails, 0) == TrashFrom(mailbox.trashed, emails, j)
        invariant failure.None?
        invariant mailbox.labelIndex == old(mailbox.labelIndex) && mailbox.searches == old(mailbox.searches)
        invariant mailbox.ensureCalls == old(mailbox.ensureCalls)
      {
        ghost var before := mailbox.trashed;
        failure := mailbox.TrashEmail(emails[j].id);
        assert TrashStep(before, mailbox.unreachable, emails[j].id) == (mailbox.trashed, failure);
        if failure.Some? {
          assert TrashFrom(before, emails, j) == (mailbox.trashed, failure);
          return;
        }
      }
    }
  }
}
