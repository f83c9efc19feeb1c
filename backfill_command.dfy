/** The `backfill` command of the command-line app
    (apps/cli/src/commands/backfill.ts): it reads `--force` and a query from
    its arguments, runs the labeller's backfill over up to 250 messages and
    counts, from the progress events, how many emails were labelled and how
    many skipped. Reading the token file is a parameter saying whether tokens
    were found; the console output is not modelled beyond the two counters it
    reports. */
module BackfillCommand {
  import opened Wrappers
  import opened Text
  import opened Errors
  import opened Mail
  import opened StateStore
  import opened Provider
  import opened Labeller

  const BatchSize := 250

  /** `args.includes('--force')` */
  predicate Force(args: seq<string>) {
    "--force" in args
  }

  /** `args.find(a => !a.startsWith('--'))`, from position `from` on. */
  function FirstPlain(args: seq<string>, from: nat): (r: Option<nat>)
    requires from <= |args|
    decreases |args| - from
    ensures r.Some? ==> from <= r.value < |args| && !StartsWith(args[r.value], "--")
    ensures r.Some? ==> forall j :: from <= j < r.value ==> StartsWith(args[j], "--")
    ensures r.None? ==> forall j :: from <= j < |args| ==> StartsWith(args[j], "--")
  {
    if from == |args| then None
    else if !StartsWith(args[from], "--") then Some(from)
    else FirstPlain(args, from + 1)
  }

  /** The query: the first argument that is not an option, unless it is
      empty; otherwise the inbox without sent mail. */
  function Query(args: seq<string>): (q: string)
    ensures q != ""
    ensures q == BackfillQuery || exists i :: 0 <= i < |args| && args[i] == q && !StartsWith(q, "--")
  {
    match FirstPlain(args, 0)
    case Some(i) => if args[i] != "" then args[i] else BackfillQuery
    case None => BackfillQuery
  }

  function CommandOptions(args: seq<string>): BackfillOptions {
    BackfillOptions(Some(BatchSize), Some(Query(args)), Some(Force(args)))
  }

  /** The two counters the `onProgress` callback keeps. */
  datatype Counters = Counters(labeled: nat, skipped: nat)

  /** The callback run over the events in delivery order: each `'labeled'`
      event adds one to `labeled`, each `'skipped'` event one to
      `skipped`. */
  method Tally(events: seq<ProgressInfo>) returns (c: Counters)
    ensures c.labeled == |WithStatus(events, Labeled)|
    ensures c.skipped == |WithStatus(events, Skipped)|
  {
    c := Counters(0, 0);
    for i := 0 to |events|
      invariant c.labeled == |WithStatus(events[..i], Labeled)|
      invariant c.skipped == |WithStatus(events[..i], Skipped)|
    {
      WithStatusSnoc(events[..i], events[i], Labeled);
      WithStatusSnoc(events[..i], events[i], Skipped);
      assert events[..i + 1] == events[..i] + [events[i]];
      if events[i].status == Labeled {
        c := c.(labeled := c.labeled + 1);
      } else if events[i].status == Skipped {
        c := c.(skipped := c.skipped + 1);
      }
    }
    assert events[..|events|] == events;
  }

  /** Each `'labeled'` event announces one label result. */
  lemma {:induction false} LabeledCount(events: seq<ProgressInfo>)
    ensures |LabeledResults(events)| == |WithStatus(events, Labeled)|
  {
    if events != [] {
      LabeledCount(events[..|events| - 1]);
    }
  }

  /** `backfill(config, args)`: without tokens it throws before anything
      happens; otherwise one labeller checks the labels and backfills with
      the options from the arguments, and the command reports the counters
      together with what the backfill returned. The `labeled` counter equals
      the number of label results, and with `--force` nothing is skipped. */
  method Run(mailbox: Mailbox, store: FileStateStore, classifier: Classifier, settings: Settings,
             args: seq<string>, haveTokens: bool, now: string)
    returns (r: Result<(Counters, ProcessResult), Error>)
    requires mailbox.ensureCalls == 0
    modifies mailbox, store
    ensures !haveTokens ==> r == Err(NoTokens)
    ensures r.Ok? ==> r.value.0.labeled == r.value.1.processed == |r.value.1.results|
    ensures r.Ok? && Force(args) ==> r.value.0.skipped == 0
    ensures r.Ok? ==> mailbox.searches == old(mailbox.searches) + [GetEmailsOptions(Some(BatchSize), Some(Query(args)), None, None)]
    ensures r.Ok? ==> mailbox.ensureCalls == 1
  {
    if !haveTokens {
      return Err(NoTokens);
    }
    var labeller := new Labeller(mailbox, store, classifier, settings);
    ghost var w0 := labeller.State();
    labeller.EnsureLabelsMemoised(w0);
    var labelMap := labeller.EnsureLabels();
    if labelMap.Err? {
      return Err(labelMap.error);
    }
    ghost var w1 := labeller.State();
    labeller.EnsureLabelsMemoised(w1);
    var options := CommandOptions(args);
    var result := labeller.Backfill(options, now);
    if result.Err? {
      return Err(result.error);
    }
    labeller.BackfillRun(w1, options, now);
    var counters := Tally(labeller.events);
    LabeledCount(labeller.events);
    r := Ok((counters, result.value));
  }
}
