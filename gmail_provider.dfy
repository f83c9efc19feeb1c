/** The Gmail implementation of the email provider
    (src/adapters/gmail/provider.ts). The Gmail REST API is an abstract
    server: what a message listing page, a metadata fetch, the label list, a
    label creation or a message lookup answers is fixed by the functions of an
    `Api` value, and an answer `Err(cause)` is a rejected request. Every
    rejection reaches the caller as a `ProviderError` of provider `gmail`. */
module GmailProvider {
  import opened Wrappers
  import opened Text
  import opened Errors
  import opened Mail
  import opened StringMap

  // ----- the Gmail API -----

  /** One `users.messages.list` request. */
  datatype ListRequest = ListRequest(q: string, pageToken: Option<string>, maxResults: nat)

  /** A listed message: only its ids. */
  datatype MessageRef = MessageRef(id: Option<string>, threadId: Option<string>)

  /** One page of a listing; `messages` is absent on an empty result. */
  datatype Page = Page(messages: Option<seq<MessageRef>>, nextPageToken: Option<string>)

  datatype Header = Header(name: Option<string>, value: Option<string>)

  /** What `users.messages.get` with the metadata format answers;
      `headers` is absent when the message has no payload. */
  datatype Metadata = Metadata(headers: Option<seq<Header>>, snippet: Option<string>)

  datatype GmailLabel = GmailLabel(id: Option<string>, name: Option<string>)

  /** A request that changes a message. */
  datatype Modification =
    | AddLabel(emailId: string, labelId: string)
    | RemoveLabel(emailId: string, labelId: string)
    | Trash(emailId: string)

  datatype Api = Api(
    list: ListRequest -> Result<Page, string>,
    /** How many pages are left after a token, for a query: the server's
        page tokens lead to the end of the listing. */
    rank: (string, Option<string>) -> nat,
    metadata: string -> Result<Metadata, string>,
    labels: Result<Option<seq<GmailLabel>>, string>,
    /** The id of the created label, or an absent id. */
    create: LabelDefinition -> Result<Option<string>, string>,
    /** The label ids of a message (format `minimal`). */
    messageLabels: string -> Result<Option<seq<string>>, string>,
    change: Modification -> Option<string>)

  /** Every next-page token the server hands out leaves fewer pages to go. */
  ghost predicate FinitePaging(api: Api) {
    forall req: ListRequest :: api.list(req).Ok? && Truthy(api.list(req).value.nextPageToken) ==>
      api.rank(req.q, api.list(req).value.nextPageToken) < api.rank(req.q, req.pageToken)
  }

  /** The OAuth credentials held by the client. */
  datatype Credentials = Credentials(accessToken: Option<string>, refreshToken: Option<string>)

  // ----- errors -----

  /** `wrapError(err, operation)`: every rejected request is rethrown as a
      provider error of the Gmail provider. */
  function Wrap(operation: string, cause: string): (e: Error)
    ensures e.ProviderError? && e.provider == "gmail" && e.Code() == "PROVIDER_ERROR"
    ensures e.message == "Gmail " + operation + " failed" && e.cause == cause
  {
    ProviderError("Gmail " + operation + " failed", "gmail", cause)
  }

  function Wrapped<T>(r: Result<T, string>, operation: string): (w: Result<T, Error>)
    ensures w.Ok? <==> r.Ok?
    ensures w.Ok? ==> w.value == r.value
    ensures w.Err? ==> w.error == Wrap(operation, r.error)
  {
    match r
    case Ok(v) => Ok(v)
    case Err(cause) => Err(Wrap(operation, cause))
  }

  // ----- the search query -----

  const DefaultQuery := "in:inbox -label:SENT"
  const DefaultMaxResults := 50
  const PageLimit := 100

  function Min(a: int, b: int): int { if a <= b then a else b }

  /** `-label:X` with every space of the label name turned into `-`. */
  function ExcludeTerms(labels: seq<string>): (r: seq<string>)
    ensures |r| == |labels|
    ensures forall i :: 0 <= i < |labels| ==> r[i] == "-label:" + ReplaceChar(labels[i], ' ', '-')
  {
    seq(|labels|, i requires 0 <= i < |labels| => "-label:" + ReplaceChar(labels[i], ' ', '-'))
  }

  /** The `q` of every listing request: the query, or the inbox without sent
      mail, followed by one exclusion term per excluded label. */
  function SearchQuery(options: GetEmailsOptions): string {
    var base := if Truthy(options.query) then options.query.value else DefaultQuery;
    var excluded := options.excludeLabels.GetOr([]);
    if |excluded| > 0 then base + " " + Join(ExcludeTerms(excluded), " ") else base
  }

  /** The query starts with the caller's query, or with the default one when
      that is absent or empty, and names every excluded label, spaces turned
      into dashes. */
  lemma SearchQueryShape(options: GetEmailsOptions)
    ensures Truthy(options.query) ==> StartsWith(SearchQuery(options), options.query.value)
    ensures !Truthy(options.query) ==> StartsWith(SearchQuery(options), DefaultQuery)
    ensures options.excludeLabels.None? || options.excludeLabels.value == [] ==>
      SearchQuery(options) == if Truthy(options.query) then options.query.value else DefaultQuery
    ensures options.excludeLabels.Some? ==> forall i :: 0 <= i < |options.excludeLabels.value| ==>
      Contains(SearchQuery(options), "-label:" + ReplaceChar(options.excludeLabels.value[i], ' ', '-'))
  {
    var base := if Truthy(options.query) then options.query.value else DefaultQuery;
    var excluded := options.excludeLabels.GetOr([]);
    if |excluded| > 0 {
      var terms := ExcludeTerms(excluded);
      var tail := " " + Join(terms, " ");
      assert SearchQuery(options) == base + tail;
      assert (base + tail)[..|base|] == base;
      forall i | 0 <= i < |excluded|
        ensures Contains(SearchQuery(options), "-label:" + ReplaceChar(excluded[i], ' ', '-'))
      {
        JoinContains(terms, " ", i);
        ContainsPrepend(base + " ", Join(terms, " "), terms[i]);
      }
    }
  }

  // ----- summaries -----

  /** `headers.find(h => h.name === name)?.value`: the value of the first
      header with that name, from position `from` on. */
  function HeaderValue(headers: seq<Header>, name: string, from: nat): (r: Option<string>)
    requires from <= |headers|
    decreases |headers| - from
    ensures r.Some? ==> exists i :: from <= i < |headers| && headers[i] == Header(Some(name), r)
    ensures (forall i :: from <= i < |headers| ==> headers[i].name != Some(name)) ==> r.None?
    ensures (exists i :: from <= i < |headers| && headers[i].name == Some(name)) ==>
      exists i :: from <= i < |headers| && headers[i].name == Some(name) && r == headers[i].value &&
        forall k :: from <= k < i ==> headers[k].name != Some(name)
  {
    if from == |headers| then None
    else if headers[from].name == Some(name) then headers[from].value
    else HeaderValue(headers, name, from + 1)
  }

  /** `value || fallback` */
  function OrElse(value: Option<string>, fallback: string): (r: string)
    ensures Truthy(value) ==> r == value.value
    ensures !Truthy(value) ==> r == fallback
  {
    if Truthy(value) then value.value else fallback
  }

  /** The summary built from a listed message and its metadata. */
  function Summary(msg: MessageRef, meta: Metadata): (e: EmailSummary)
    requires Truthy(msg.id)
    ensures e.id == msg.id.value && e.id != ""
    ensures e.subject != "" && e.threadId == msg.threadId.GetOr("") && e.snippet == meta.snippet.GetOr("")
    ensures Truthy(HeaderValue(meta.headers.GetOr([]), "Subject", 0)) ==> e.subject == HeaderValue(meta.headers.GetOr([]), "Subject", 0).value
    ensures !Truthy(HeaderValue(meta.headers.GetOr([]), "Subject", 0)) ==> e.subject == "(no subject)"
    ensures Truthy(HeaderValue(meta.headers.GetOr([]), "From", 0)) ==> e.from == HeaderValue(meta.headers.GetOr([]), "From", 0).value
    ensures !Truthy(HeaderValue(meta.headers.GetOr([]), "From", 0)) ==> e.from == ""
    ensures Truthy(HeaderValue(meta.headers.GetOr([]), "Date", 0)) ==> e.date == HeaderValue(meta.headers.GetOr([]), "Date", 0).value
    ensures !Truthy(HeaderValue(meta.headers.GetOr([]), "Date", 0)) ==> e.date == ""
  {
    var headers := meta.headers.GetOr([]);
    EmailSummary(
      msg.id.value,
      OrElse(msg.threadId, ""),
      OrElse(HeaderValue(headers, "Subject", 0), "(no subject)"),
      OrElse(HeaderValue(headers, "From", 0), ""),
      OrElse(meta.snippet, ""),
      OrElse(HeaderValue(headers, "Date", 0), ""))
  }

  // ----- the paging loop, as a specification -----

  /** The inner loop over one page, from message `j` on: messages without an
      id, and messages arriving once `max` summaries are collected, are
      skipped; every other one is fetched and summarised. */
  function FetchFrom(api: Api, msgs: seq<MessageRef>, j: nat, emails: seq<EmailSummary>, max: nat): (r: Result<seq<EmailSummary>, string>)
    requires j <= |msgs|
    decreases |msgs| - j
    ensures r.Ok? ==> emails <= r.value
    ensures r.Ok? && |emails| <= max ==> |r.value| <= max
    ensures r.Ok? ==> forall k :: |emails| <= k < |r.value| ==>
      r.value[k].subject != "" && exists i :: j <= i < |msgs| && msgs[i].id == Some(r.value[k].id) && r.value[k].id != ""
  {
    if j == |msgs| then Ok(emails)
    else if !Truthy(msgs[j].id) || |emails| >= max then FetchFrom(api, msgs, j + 1, emails, max)
    else
      match api.metadata(msgs[j].id.value)
      case Err(cause) => Err(cause)
      case Ok(meta) => FetchFrom(api, msgs, j + 1, emails + [Summary(msgs[j], meta)], max)
  }

  /** The messages of a page that carry an id, in the page's order: the ones
      the inner loop may fetch. */
  function IdBearing(msgs: seq<MessageRef>): (r: seq<MessageRef>)
    ensures |r| <= |msgs|
    ensures forall k :: 0 <= k < |r| ==> Truthy(r[k].id)
  {
    if msgs == [] then []
    else (if Truthy(msgs[0].id) then [msgs[0]] else []) + IdBearing(msgs[1..])
  }

  /** The first `n` elements of `s`, all of it when it is shorter, none when
      `n` is not positive. */
  function Take<T>(s: seq<T>, n: int): (r: seq<T>)
    ensures r <= s
    ensures |r| == if n <= 0 then 0 else Min(n, |s|)
  {
    if n <= 0 then [] else if |s| <= n then s else s[..n]
  }

  /** The messages the inner loop fetches from message `j` on, `collected`
      summaries in: those with an id, as many as there is room for. */
  function Due(msgs: seq<MessageRef>, j: nat, collected: nat, max: nat): (r: seq<MessageRef>)
    requires j <= |msgs|
  {
    Take(IdBearing(msgs[j..]), max - collected)
  }

  /** Every message of `refs` has an id whose metadata lookup succeeds. */
  predicate Fetchable(api: Api, refs: seq<MessageRef>) {
    forall k :: 0 <= k < |refs| ==> Truthy(refs[k].id) && api.metadata(refs[k].id.value).Ok?
  }

  /** The summaries of `refs`, each from its own metadata, in order. */
  function Summaries(api: Api, refs: seq<MessageRef>): (r: seq<EmailSummary>)
    requires Fetchable(api, refs)
    ensures |r| == |refs|
    ensures forall k :: 0 <= k < |r| ==> r[k] == Summary(refs[k], api.metadata(refs[k].id.value).value)
  {
    if refs == [] then []
    else [Summary(refs[0], api.metadata(refs[0].id.value).value)] + Summaries(api, refs[1..])
  }

  lemma SummariesCons(api: Api, m: MessageRef, rest: seq<MessageRef>)
    ensures Fetchable(api, [m] + rest) <==> Truthy(m.id) && api.metadata(m.id.value).Ok? && Fetchable(api, rest)
    ensures Fetchable(api, [m] + rest) ==>
      Summaries(api, [m] + rest) == [Summary(m, api.metadata(m.id.value).value)] + Summaries(api, rest)
  {
    if Truthy(m.id) && api.metadata(m.id.value).Ok? && Fetchable(api, rest) {
      forall k | 0 <= k < |[m] + rest|
        ensures Truthy(([m] + rest)[k].id) && api.metadata(([m] + rest)[k].id.value).Ok?
      {
        if k > 0 {
          assert ([m] + rest)[k] == rest[k - 1];
        }
      }
      assert ([m] + rest)[1..] == rest;
    }
    if Fetchable(api, [m] + rest) {
      assert ([m] + rest)[0] == m;
      forall k | 0 <= k < |rest|
        ensures Truthy(rest[k].id) && api.metadata(rest[k].id.value).Ok?
      {
        assert rest[k] == ([m] + rest)[k + 1];
      }
    }
  }

  lemma TakeCons<T>(x: T, rest: seq<T>, n: int)
    requires n >= 1
    ensures Take([x] + rest, n) == [x] + Take(rest, n - 1)
  {
    if n - 1 > 0 && |rest| > n - 1 {
      assert ([x] + rest)[..n] == [x] + rest[..n - 1];
    }
  }

  /** How `Due` unfolds at message `j`: a message without an id, or one
      arriving with no room left, is not due; otherwise it is due first. */
  lemma DueStep(msgs: seq<MessageRef>, j: nat, collected: nat, max: nat)
    requires j < |msgs|
    ensures !Truthy(msgs[j].id) || collected >= max ==> Due(msgs, j, collected, max) == Due(msgs, j + 1, collected, max)
    ensures Truthy(msgs[j].id) && collected < max ==>
      Due(msgs, j, collected, max) == [msgs[j]] + Due(msgs, j + 1, collected + 1, max)
  {
    assert msgs[j..][1..] == msgs[j + 1..];
    if Truthy(msgs[j].id) && collected < max {
      TakeCons(msgs[j], IdBearing(msgs[j + 1..]), max - collected);
    }
  }

  /** `r` is what fetching `due` after `emails` gives: a success exactly
      when every message of `due` can be looked up, and then `emails`
      followed by their summaries. */
  ghost predicate Describes(api: Api, r: Result<seq<EmailSummary>, string>, emails: seq<EmailSummary>, due: seq<MessageRef>) {
    && (r.Ok? <==> Fetchable(api, due))
    && (r.Ok? ==> r.value == emails + Summaries(api, due))
  }

  /** The inner loop succeeds exactly when every message it is due to fetch
      can be looked up, and then appends their summaries, in page order. */
  lemma {:induction false} FetchFromContents(api: Api, msgs: seq<MessageRef>, j: nat, emails: seq<EmailSummary>, max: nat)
    requires j <= |msgs|
    decreases |msgs| - j
    ensures var r := FetchFrom(api, msgs, j, emails, max);
      var due := Due(msgs, j, |emails|, max);
      && (r.Ok? <==> Fetchable(api, due))
      && (r.Ok? ==> r.value == emails + Summaries(api, due))
  {
    if j < |msgs| {
      DueStep(msgs, j, |emails|, max);
      if !Truthy(msgs[j].id) || |emails| >= max {
        FetchFromContents(api, msgs, j + 1, emails, max);
      } else if api.metadata(msgs[j].id.value).Ok? {
        var meta := api.metadata(msgs[j].id.value).value;
        var emails' := emails + [Summary(msgs[j], meta)];
        FetchFromContents(api, msgs, j + 1, emails', max);
        assert FetchFrom(api, msgs, j, emails, max) == FetchFrom(api, msgs, j + 1, emails', max);
        FetchedOne(api, FetchFrom(api, msgs, j + 1, emails', max), emails, msgs[j], meta, Due(msgs, j + 1, |emails'|, max));
      } else {
        SummariesCons(api, msgs[j], Due(msgs, j + 1, |emails| + 1, max));
      }
    }
  }

  /** A message looked up first: what fetching the rest gives after its
      summary is what fetching it and the rest gives. */
  lemma FetchedOne(api: Api, r: Result<seq<EmailSummary>, string>, emails: seq<EmailSummary>, m: MessageRef, meta: Metadata, due: seq<MessageRef>)
    requires Truthy(m.id) && api.metadata(m.id.value) == Ok(meta)
    requires Describes(api, r, emails + [Summary(m, meta)], due)
    ensures Describes(api, r, emails, [m] + due)
  {
    SummariesCons(api, m, due);
  }

  /** The cause of the first lookup of `refs` that fails, if one does. */
  function FirstFailure(api: Api, refs: seq<MessageRef>): (r: Option<string>)
    requires forall k :: 0 <= k < |refs| ==> Truthy(refs[k].id)
    ensures r.None? <==> Fetchable(api, refs)
    ensures r.Some? ==> exists k :: 0 <= k < |refs| && api.metadata(refs[k].id.value) == Err(r.value)
  {
    if refs == [] then None
    else assert Truthy(refs[0].id); match api.metadata(refs[0].id.value)
      case Err(cause) => Some(cause)
      case Ok(_) => SummariesCons(api, refs[0], refs[1..]); assert refs == [refs[0]] + refs[1..]; FirstFailure(api, refs[1..])
  }

  /** When the inner loop fails, the failure is that of the first due
      message whose lookup fails. */
  lemma {:induction false} FetchFromFailure(api: Api, msgs: seq<MessageRef>, j: nat, emails: seq<EmailSummary>, max: nat)
    requires j <= |msgs|
    decreases |msgs| - j
    ensures var r := FetchFrom(api, msgs, j, emails, max);
      r.Err? ==> FirstFailure(api, Due(msgs, j, |emails|, max)) == Some(r.error)
  {
    if j < |msgs| {
      DueStep(msgs, j, |emails|, max);
      if !Truthy(msgs[j].id) || |emails| >= max {
        FetchFromFailure(api, msgs, j + 1, emails, max);
      } else {
        var due := Due(msgs, j, |emails|, max);
        assert due[0] == msgs[j] && due[1..] == Due(msgs, j + 1, |emails| + 1, max);
        var meta := api.metadata(msgs[j].id.value);
        if meta.Ok? {
          FetchFromFailure(api, msgs, j + 1, emails + [Summary(msgs[j], meta.value)], max);
        }
      }
    }
  }

  /** The outer loop from page token `token` on, with `emails` collected and
      `log` the listing requests made so far: the listing result and the
      requests made up to the end. */
  function Collect(api: Api, q: string, token: Option<string>, max: nat, emails: seq<EmailSummary>, log: seq<ListRequest>)
    : (r: (Result<seq<EmailSummary>, string>, seq<ListRequest>))
    requires FinitePaging(api)
    decreases api.rank(q, token)
  {
    if |emails| >= max then (Ok(emails), log)
    else
      var req := ListRequest(q, token, Min(PageLimit, max - |emails|));
      var log' := log + [req];
      match api.list(req)
      case Err(cause) => (Err(cause), log')
      case Ok(page) =>
        if page.messages.None? then (Ok(emails), log')
        else
          match FetchFrom(api, page.messages.value, 0, emails, max)
          case Err(cause) => (Err(cause), log')
          case Ok(more) =>
            if !Truthy(page.nextPageToken) then (Ok(more), log')
            else Collect(api, q, page.nextPageToken, max, more, log')
  }

  /** The paging loop only adds to what was collected, never goes past
      `max`, collects summaries with an id and a subject, and asks every page
      of the query for between one and a hundred messages, the first for
      min(100, what is still missing). */
  lemma {:induction false} CollectFacts(api: Api, q: string, token: Option<string>, max: nat, emails: seq<EmailSummary>, log: seq<ListRequest>)
    requires FinitePaging(api)
    decreases api.rank(q, token)
    ensures var r := Collect(api, q, token, max, emails, log);
      && log <= r.1
      && (r.0.Ok? ==> emails <= r.0.value)
      && (r.0.Ok? && |emails| <= max ==> |r.0.value| <= max)
      && (r.0.Ok? ==> forall k :: |emails| <= k < |r.0.value| ==> r.0.value[k].id != "" && r.0.value[k].subject != "")
      && (forall k :: |log| <= k < |r.1| ==> r.1[k].q == q && 1 <= r.1[k].maxResults <= PageLimit)
      && (|emails| < max ==> |r.1| > |log| && r.1[|log|] == ListRequest(q, token, Min(PageLimit, max - |emails|)))
  {
    if |emails| < max {
      var req := ListRequest(q, token, Min(PageLimit, max - |emails|));
      var log' := log + [req];
      if api.list(req).Ok? {
        var page := api.list(req).value;
        if page.messages.Some? {
          var fetched := FetchFrom(api, page.messages.value, 0, emails, max);
          if fetched.Ok? && Truthy(page.nextPageToken) {
            var more := fetched.value;
            var rest := Collect(api, q, page.nextPageToken, max, more, log');
            assert Collect(api, q, token, max, emails, log) == rest;
            CollectFacts(api, q, page.nextPageToken, max, more, log');
            assert rest.1[|log|] == log'[|log|] == req;
            if rest.0.Ok? {
              forall k | |emails| <= k < |rest.0.value|
                ensures rest.0.value[k].id != "" && rest.0.value[k].subject != ""
              {
                if k < |more| {
                  assert rest.0.value[k] == more[k];
                }
              }
            }
          }
        }
      }
    }
  }

  /** Paging stops after a page without messages or without a next-page
      token: a second request is made only after a page that has both. */
  lemma PagingStops(api: Api, q: string, token: Option<string>, max: nat, emails: seq<EmailSummary>, log: seq<ListRequest>)
    requires FinitePaging(api) && |emails| < max
    ensures var first := api.list(ListRequest(q, token, Min(PageLimit, max - |emails|)));
      |Collect(api, q, token, max, emails, log).1| > |log| + 1 ==>
        first.Ok? && first.value.messages.Some? && Truthy(first.value.nextPageToken)
  {
  }

  /** What one listing request adds to `emails` when it and every lookup of
      the messages due from its page succeed: their summaries, in order. */
  function Grow(api: Api, emails: seq<EmailSummary>, req: ListRequest, max: nat): (r: seq<EmailSummary>)
    ensures emails <= r
    ensures |emails| <= max ==> |r| <= max
  {
    match api.list(req)
    case Ok(Page(Some(msgs), _)) =>
      var due := Due(msgs, 0, |emails|, max);
      if Fetchable(api, due) then emails + Summaries(api, due) else emails
    case _ => emails
  }

  /** The summaries collected by answering `reqs` in turn, from `emails` on. */
  function Replay(api: Api, reqs: seq<ListRequest>, emails: seq<EmailSummary>, max: nat): (r: seq<EmailSummary>)
    decreases |reqs|
    ensures emails <= r
    ensures |emails| <= max ==> |r| <= max
  {
    if reqs == [] then emails
    else Replay(api, reqs[1..], Grow(api, emails, reqs[0], max), max)
  }

  /** Request `b` follows request `a`: the page `a` got has messages and the
      token of the next one, and `b` asks for that page. */
  predicate Continues(api: Api, a: ListRequest, b: ListRequest) {
    && api.list(a).Ok?
    && api.list(a).value.messages.Some?
    && Truthy(api.list(a).value.nextPageToken)
    && b.pageToken == api.list(a).value.nextPageToken
  }

  /** A request whose page and lookups succeed grows the summaries exactly
      as the inner loop over that page does. */
  lemma GrowFetches(api: Api, emails: seq<EmailSummary>, req: ListRequest, max: nat)
    requires api.list(req).Ok? && api.list(req).value.messages.Some?
    requires FetchFrom(api, api.list(req).value.messages.value, 0, emails, max).Ok?
    ensures Grow(api, emails, req, max) == FetchFrom(api, api.list(req).value.messages.value, 0, emails, max).value
  {
    FetchFromContents(api, api.list(req).value.messages.value, 0, emails, max);
  }

  /** The page `req` asks for has messages and a next-page token, and every
      lookup due from it succeeds: the paging loop goes on after it. */
  predicate Proceeds(api: Api, req: ListRequest, emails: seq<EmailSummary>, max: nat) {
    && api.list(req).Ok?
    && api.list(req).value.messages.Some?
    && Truthy(api.list(req).value.nextPageToken)
    && FetchFrom(api, api.list(req).value.messages.value, 0, emails, max).Ok?
  }

  /** Each of `reqs` is for the query and for min(100, what is still
      missing once the summaries of the earlier pages are in): the first for
      what `emails` leaves, each later one for what the pages before it
      left. */
  ghost predicate RequestsSized(api: Api, q: string, max: nat, emails: seq<EmailSummary>, reqs: seq<ListRequest>)
    decreases |reqs|
  {
    reqs != [] ==>
      && reqs[0].q == q
      && reqs[0].maxResults == Min(PageLimit, max - |emails|)
      && RequestsSized(api, q, max, Grow(api, emails, reqs[0], max), reqs[1..])
  }

  /** The first of `reqs` asks for the page at `token`, and each later one
      for the page its predecessor's answer pointed to. */
  ghost predicate RequestsChained(api: Api, token: Option<string>, reqs: seq<ListRequest>) {
    && (|reqs| > 0 ==> reqs[0].pageToken == token)
    && (forall k :: 0 <= k < |reqs| - 1 ==> Continues(api, reqs[k], reqs[k + 1]))
  }

  /** A first request sized for `emails`, followed by requests sized for
      what its page adds. */
  lemma SizedCons(api: Api, q: string, max: nat, emails: seq<EmailSummary>, req: ListRequest, tail: seq<ListRequest>)
    requires req.q == q && req.maxResults == Min(PageLimit, max - |emails|)
    requires RequestsSized(api, q, max, Grow(api, emails, req, max), tail)
    ensures RequestsSized(api, q, max, emails, [req] + tail)
  {
    assert ([req] + tail)[1..] == tail;
  }

  /** A first request for the page at `token`, followed by the chain from the
      page its answer points to. */
  lemma ChainedCons(api: Api, token: Option<string>, req: ListRequest, tail: seq<ListRequest>)
    requires req.pageToken == token
    requires api.list(req).Ok? && api.list(req).value.messages.Some? && Truthy(api.list(req).value.nextPageToken)
    requires RequestsChained(api, api.list(req).value.nextPageToken, tail)
    ensures RequestsChained(api, token, [req] + tail)
  {
    var reqs := [req] + tail;
    forall k | 0 <= k < |reqs| - 1
      ensures Continues(api, reqs[k], reqs[k + 1])
    {
      assert reqs[k + 1] == tail[k];
      if k > 0 {
        assert reqs[k] == tail[k - 1];
      }
    }
  }

  /** One round of the paging loop, with room left: it asks for the page at
      `token`; it goes on to the next page only when the page has messages
      and a next-page token and the lookups succeed; when it stops there, a
      success holds what that page grew the summaries to. */
  lemma CollectStep(api: Api, q: string, token: Option<string>, max: nat, emails: seq<EmailSummary>, log: seq<ListRequest>)
    requires FinitePaging(api) && |emails| < max
    ensures var req := ListRequest(q, token, Min(PageLimit, max - |emails|));
      var r := Collect(api, q, token, max, emails, log);
      if Proceeds(api, req, emails, max) then
        && Continues(api, req, ListRequest(q, api.list(req).value.nextPageToken, 0))
        && Grow(api, emails, req, max) == FetchFrom(api, api.list(req).value.messages.value, 0, emails, max).value
        && r == Collect(api, q, api.list(req).value.nextPageToken, max, Grow(api, emails, req, max), log + [req])
      else
        && r.1 == log + [req]
        && (r.0.Ok? ==> r.0.value == Grow(api, emails, req, max))
  {
    var req := ListRequest(q, token, Min(PageLimit, max - |emails|));
    if api.list(req).Ok? && api.list(req).value.messages.Some? {
      var msgs := api.list(req).value.messages.value;
      if FetchFrom(api, msgs, 0, emails, max).Ok? {
        GrowFetches(api, emails, req, max);
      }
    }
  }

  /** Every request of the paging loop is for the query and for min(100,
      what is still missing once the earlier pages' summaries are in). */
  lemma {:induction false} CollectRequests(api: Api, q: string, token: Option<string>, max: nat, emails: seq<EmailSummary>, log: seq<ListRequest>)
    requires FinitePaging(api)
    decreases api.rank(q, token)
    ensures log <= Collect(api, q, token, max, emails, log).1
    ensures RequestsSized(api, q, max, emails, Collect(api, q, token, max, emails, log).1[|log|..])
  {
    if |emails| < max {
      var r := Collect(api, q, token, max, emails, log);
      var req := ListRequest(q, token, Min(PageLimit, max - |emails|));
      CollectStep(api, q, token, max, emails, log);
      if Proceeds(api, req, emails, max) {
        var log' := log + [req];
        CollectRequests(api, q, api.list(req).value.nextPageToken, max, Grow(api, emails, req, max), log');
        assert r.1[|log|..] == [req] + r.1[|log'|..];
        SizedCons(api, q, max, emails, req, r.1[|log'|..]);
      } else {
        assert r.1[|log|..] == [req];
        assert [req][1..] == [];
      }
    } else {
      assert Collect(api, q, token, max, emails, log).1[|log|..] == [];
    }
  }

  /** The paging loop asks first for the page at `token`, then for each next
      page in turn. */
  lemma {:induction false} CollectChain(api: Api, q: string, token: Option<string>, max: nat, emails: seq<EmailSummary>, log: seq<ListRequest>)
    requires FinitePaging(api)
    decreases api.rank(q, token)
    ensures log <= Collect(api, q, token, max, emails, log).1
    ensures RequestsChained(api, token, Collect(api, q, token, max, emails, log).1[|log|..])
  {
    if |emails| < max {
      var r := Collect(api, q, token, max, emails, log);
      var req := ListRequest(q, token, Min(PageLimit, max - |emails|));
      CollectStep(api, q, token, max, emails, log);
      if Proceeds(api, req, emails, max) {
        var log' := log + [req];
        CollectChain(api, q, api.list(req).value.nextPageToken, max, Grow(api, emails, req, max), log');
        assert r.1[|log|..] == [req] + r.1[|log'|..];
        ChainedCons(api, token, req, r.1[|log'|..]);
      } else {
        assert r.1[|log|..] == [req];
      }
    } else {
      assert Collect(api, q, token, max, emails, log).1[|log|..] == [];
    }
  }

  /** What the paging loop collects, when it succeeds, is exactly the
      summaries its requests' pages contribute, in order. */
  lemma {:induction false} CollectReplays(api: Api, q: string, token: Option<string>, max: nat, emails: seq<EmailSummary>, log: seq<ListRequest>)
    requires FinitePaging(api)
    decreases api.rank(q, token)
    ensures log <= Collect(api, q, token, max, emails, log).1
    ensures var r := Collect(api, q, token, max, emails, log);
      r.0.Ok? ==> r.0.value == Replay(api, r.1[|log|..], emails, max)
  {
    if |emails| < max {
      var r := Collect(api, q, token, max, emails, log);
      var req := ListRequest(q, token, Min(PageLimit, max - |emails|));
      CollectStep(api, q, token, max, emails, log);
      if Proceeds(api, req, emails, max) {
        var log' := log + [req];
        CollectReplays(api, q, api.list(req).value.nextPageToken, max, Grow(api, emails, req, max), log');
        assert r.1[|log|..] == [req] + r.1[|log'|..];
        assert r.1[|log|..][1..] == r.1[|log'|..];
      } else {
        assert r.1[|log|..] == [req];
        assert [req][1..] == [];
      }
    }
  }

  function MaxOf(options: GetEmailsOptions): nat {
    options.maxResults.GetOr(DefaultMaxResults)
  }

  /** `getEmails(options)` from request log `log`: the answer and the new log. */
  function GetEmailsSpec(api: Api, options: GetEmailsOptions, log: seq<ListRequest>)
    : (r: (Result<seq<EmailSummary>, Error>, seq<ListRequest>))
    requires FinitePaging(api)
  {
    var (res, log') := Collect(api, SearchQuery(options), options.pageToken, MaxOf(options), [], log);
    (Wrapped(res, "getEmails"), log')
  }

  /** At most `maxResults` summaries (50 by default), each with an id and a
      subject; every page request is for the query and asks for between one
      and a hundred messages, the first for min(100, maxResults); no request
      at all when `maxResults` is 0; a failure is a Gmail provider error. */
  lemma GetEmailsFacts(api: Api, options: GetEmailsOptions, log: seq<ListRequest>)
    requires FinitePaging(api)
    ensures var (r, log') := GetEmailsSpec(api, options, log);
      && log <= log'
      && (r.Ok? ==> |r.value| <= MaxOf(options))
      && (r.Ok? ==> forall k :: 0 <= k < |r.value| ==> r.value[k].id != "" && r.value[k].subject != "")
      && (r.Err? ==> r.error.ProviderError? && r.error.provider == "gmail")
      && (forall k :: |log| <= k < |log'| ==> log'[k].q == SearchQuery(options) && 1 <= log'[k].maxResults <= PageLimit)
      && (MaxOf(options) > 0 ==> |log'| > |log| && log'[|log|] == ListRequest(SearchQuery(options), options.pageToken, Min(PageLimit, MaxOf(options))))
      && (MaxOf(options) == 0 ==> r == Ok([]) && log' == log)
  {
    CollectFacts(api, SearchQuery(options), options.pageToken, MaxOf(options), [], log);
  }

  /** `getEmails` asks for the query's pages in turn from `pageToken` on,
      each for min(100, what is still missing of `maxResults`), and when it
      succeeds it returns exactly the summaries of those pages' messages that
      have an id, in order, cut at `maxResults`. */
  lemma GetEmailsContents(api: Api, options: GetEmailsOptions, log: seq<ListRequest>)
    requires FinitePaging(api)
    ensures var (r, log') := GetEmailsSpec(api, options, log);
      && log <= log'
      && RequestsSized(api, SearchQuery(options), MaxOf(options), [], log'[|log|..])
      && RequestsChained(api, options.pageToken, log'[|log|..])
      && (r.Ok? ==> r.value == Replay(api, log'[|log|..], [], MaxOf(options)))
  {
    CollectRequests(api, SearchQuery(options), options.pageToken, MaxOf(options), [], log);
    CollectChain(api, SearchQuery(options), options.pageToken, MaxOf(options), [], log);
    CollectReplays(api, SearchQuery(options), options.pageToken, MaxOf(options), [], log);
  }

  // ----- label creation, as a specification -----

  /** `existingLabels.find(l => l.name === name)`, from position `from` on. */
  function FindLabel(existing: seq<GmailLabel>, name: string, from: nat): (r: Option<GmailLabel>)
    requires from <= |existing|
    decreases |existing| - from
    ensures r.Some? ==> r.value.name == Some(name)
    ensures r.Some? ==>
      exists i :: from <= i < |existing| && existing[i] == r.value &&
        forall k :: from <= k < i ==> existing[k].name != Some(name)
    ensures r.None? <==> forall i :: from <= i < |existing| ==> existing[i].name != Some(name)
  {
    if from == |existing| then None
    else if existing[from].name == Some(name) then Some(existing[from])
    else FindLabel(existing, name, from + 1)
  }

  /** Whether the label must be created: there is no existing label of that
      name, or the first one has no id. */
  predicate NeedsCreation(existing: seq<GmailLabel>, def: LabelDefinition) {
    var found := FindLabel(existing, def.name, 0);
    !(found.Some? && Truthy(found.value.id))
  }

  /** The id one iteration records for a label, if any. */
  function Resolve(api: Api, existing: seq<GmailLabel>, def: LabelDefinition): (r: Result<Option<string>, string>)
    ensures !NeedsCreation(existing, def) ==> r == Ok(FindLabel(existing, def.name, 0).value.id)
    ensures NeedsCreation(existing, def) ==> (r.Err? <==> api.create(def).Err?)
    ensures NeedsCreation(existing, def) && r.Ok? ==> (r.value.Some? <==> Truthy(api.create(def).value))
    ensures r.Ok? && r.value.Some? ==> r.value.value != ""
  {
    if !NeedsCreation(existing, def) then Ok(FindLabel(existing, def.name, 0).value.id)
    else
      match api.create(def)
      case Err(cause) => Err(cause)
      case Ok(id) => Ok(if Truthy(id) then id else None)
  }

  /** The loop over the configured labels from position `k` on, with `m` the
      map so far and `created` the creation requests made so far. */
  function EnsureFrom(api: Api, existing: seq<GmailLabel>, labels: seq<LabelDefinition>, k: nat, m: StrMap, created: seq<LabelDefinition>)
    : (r: (Result<StrMap, string>, seq<LabelDefinition>))
    requires k <= |labels|
    decreases |labels| - k
  {
    if k == |labels| then (Ok(m), created)
    else
      var def := labels[k];
      var created' := if NeedsCreation(existing, def) then created + [def] else created;
      match Resolve(api, existing, def)
      case Err(cause) => (Err(cause), created')
      case Ok(id) =>
        var m' := if id.Some? then Put(m, def.name, id.value) else m;
        EnsureFrom(api, existing, labels, k + 1, m', created')
  }

  /** `ensureLabelsExist(labels)` from creation log `created`. */
  function EnsureSpec(api: Api, labels: seq<LabelDefinition>, created: seq<LabelDefinition>)
    : (r: (Result<StrMap, Error>, seq<LabelDefinition>))
  {
    match api.labels
    case Err(cause) => (Err(Wrap("ensureLabelsExist", cause)), created)
    case Ok(listed) =>
      var (res, created') := EnsureFrom(api, listed.GetOr([]), labels, 0, Empty, created);
      (Wrapped(res, "ensureLabelsExist"), created')
  }

  predicate DistinctNames(labels: seq<LabelDefinition>) {
    forall i, j :: 0 <= i < j < |labels| ==> labels[i].name != labels[j].name
  }

  /** A name the remaining labels do not carry keeps its entry. */
  lemma {:induction false} EnsureFromKeeps(api: Api, existing: seq<GmailLabel>, labels: seq<LabelDefinition>, k: nat, m: StrMap, created: seq<LabelDefinition>, name: string)
    requires k <= |labels|
    requires EnsureFrom(api, existing, labels, k, m, created).0.Ok?
    requires forall i :: k <= i < |labels| ==> labels[i].name != name
    decreases |labels| - k
    ensures Get(EnsureFrom(api, existing, labels, k, m, created).0.value, name) == Get(m, name)
  {
    if k < |labels| {
      var def := labels[k];
      var created' := if NeedsCreation(existing, def) then created + [def] else created;
      var id := Resolve(api, existing, def).value;
      var m' := if id.Some? then Put(m, def.name, id.value) else m;
      assert EnsureFrom(api, existing, labels, k, m, created) == EnsureFrom(api, existing, labels, k + 1, m', created');
      EnsureFromKeeps(api, existing, labels, k + 1, m', created', name);
    }
  }

  /** With distinct names, label `i` ends up with the id its iteration
      records, or keeps its earlier entry when none is recorded. */
  lemma {:induction false} EnsureFromMaps(api: Api, existing: seq<GmailLabel>, labels: seq<LabelDefinition>, k: nat, m: StrMap, created: seq<LabelDefinition>, i: nat)
    requires k <= i < |labels| && DistinctNames(labels)
    requires EnsureFrom(api, existing, labels, k, m, created).0.Ok?
    decreases |labels| - k
    ensures Resolve(api, existing, labels[i]).Ok?
    ensures var id := Resolve(api, existing, labels[i]).value;
      Get(EnsureFrom(api, existing, labels, k, m, created).0.value, labels[i].name) == if id.Some? then id else Get(m, labels[i].name)
  {
    var def := labels[k];
    var created' := if NeedsCreation(existing, def) then created + [def] else created;
    var id := Resolve(api, existing, def).value;
    var m' := if id.Some? then Put(m, def.name, id.value) else m;
    assert EnsureFrom(api, existing, labels, k, m, created) == EnsureFrom(api, existing, labels, k + 1, m', created');
    var out := EnsureFrom(api, existing, labels, k + 1, m', created').0.value;
    if i == k {
      EnsureFromKeeps(api, existing, labels, k + 1, m', created', def.name);
      assert Get(out, def.name) == Get(m', def.name);
      assert Get(m', def.name) == if id.Some? then id else Get(m, def.name);
    } else {
      EnsureFromMaps(api, existing, labels, k + 1, m', created', i);
      var name := labels[i].name;
      assert name != def.name;
      assert Get(m', name) == Get(m, name);
    }
  }

  lemma {:induction false} EnsureFromCreates(api: Api, existing: seq<GmailLabel>, labels: seq<LabelDefinition>, k: nat, m: StrMap, created: seq<LabelDefinition>)
    requires k <= |labels|
    decreases |labels| - k
    ensures var c := EnsureFrom(api, existing, labels, k, m, created).1;
      created <= c && forall j :: |created| <= j < |c| ==> c[j] in labels[k..] && NeedsCreation(existing, c[j])
  {
    if k < |labels| {
      var def := labels[k];
      var created' := if NeedsCreation(existing, def) then created + [def] else created;
      match Resolve(api, existing, def)
      case Err(_) =>
      case Ok(id) =>
        var m' := if id.Some? then Put(m, def.name, id.value) else m;
        EnsureFromCreates(api, existing, labels, k + 1, m', created');
        assert labels[k + 1..] <= labels[k..][1..];
    }
  }

  /** With distinct label names, a successful `ensureLabelsExist` maps each
      name to the id of the existing label of exactly that name, else to the
      id the creation returned; a name is absent only when creation returned
      no id; no other name is mapped; and only labels without an existing id
      are created. */
  lemma EnsureLabelsMapping(api: Api, labels: seq<LabelDefinition>, created: seq<LabelDefinition>)
    requires DistinctNames(labels)
    ensures var (r, created') := EnsureSpec(api, labels, created);
      && created <= created'
      && (api.labels.Ok? ==> forall j :: |created| <= j < |created'| ==>
            created'[j] in labels && NeedsCreation(api.labels.value.GetOr([]), created'[j]))
      && (r.Err? ==> r.error == Wrap("ensureLabelsExist", r.error.cause))
      && (r.Ok? ==> forall i :: 0 <= i < |labels| ==>
            Resolve(api, api.labels.value.GetOr([]), labels[i]).Ok? &&
            Get(r.value, labels[i].name) == Resolve(api, api.labels.value.GetOr([]), labels[i]).value)
      && (r.Ok? ==> forall name :: name !in Names(labels) ==> Get(r.value, name).None?)
  {
    match api.labels
    case Err(_) =>
    case Ok(listed) =>
      var existing := listed.GetOr([]);
      EnsureFromCreates(api, existing, labels, 0, Empty, created);
      assert labels[0..] == labels;
      var res := EnsureFrom(api, existing, labels, 0, Empty, created).0;
      if res.Ok? {
        forall i | 0 <= i < |labels|
          ensures Resolve(api, existing, labels[i]).Ok? && Get(res.value, labels[i].name) == Resolve(api, existing, labels[i]).value
        {
          EnsureFromMaps(api, existing, labels, 0, Empty, created, i);
        }
        forall name | name !in Names(labels) ensures Get(res.value, name).None? {
          forall i | 0 <= i < |labels| ensures labels[i].name != name {
            assert Names(labels)[i] == labels[i].name;
          }
          EnsureFromKeeps(api, existing, labels, 0, Empty, created, name);
        }
      }
  }

  /** `labelIds.some(id => msgLabelIds.has(id))` */
  predicate AnyOf(labelIds: seq<string>, msgLabelIds: seq<string>) {
    exists i :: 0 <= i < |labelIds| && labelIds[i] in msgLabelIds
  }

  // ----- the provider object -----

  class GmailProvider {
    /** The OAuth client's credentials. */
    var credentials: Credentials
    /** Every `users.messages.list` request, in order. */
    var listRequests: seq<ListRequest>
    /** Every `users.labels.create` request, in order. */
    var createRequests: seq<LabelDefinition>
    /** Every `users.messages.modify` or `trash` request, in order. */
    var modifications: seq<Modification>
    const api: Api

    /** `createGmailProvider(config)`: the client starts with the configured
        tokens, or none. */
    constructor (api: Api, tokens: Option<Credentials>)
      ensures this.api == api && listRequests == [] && createRequests == [] && modifications == []
      ensures credentials == tokens.GetOr(Credentials(None, None))
    {
      this.api := api;
      credentials := tokens.GetOr(Credentials(None, None));
      listRequests := [];
      createRequests := [];
      modifications := [];
    }

    /** `isAuthenticated()`: an access token or a refresh token is present. */
    method IsAuthenticated() returns (b: bool)
      ensures b <==> Truthy(credentials.accessToken) || Truthy(credentials.refreshToken)
      ensures b ==> credentials != Credentials(None, None)
    {
      b := Truthy(credentials.accessToken) || Truthy(credentials.refreshToken);
    }

    /** `authenticate(credentials)` */
    method Authenticate(tokens: Credentials)
      modifies this
      ensures credentials == tokens
      ensures listRequests == old(listRequests) && createRequests == old(createRequests) && modifications == old(modifications)
    {
      credentials := tokens;
    }

    /** `listLabels()`: a missing name or id reads as empty. */
    method ListLabels() returns (r: Result<seq<AppliedLabel>, Error>)
      ensures r.Err? <==> api.labels.Err?
      ensures r.Err? ==> r.error == Wrap("listLabels", api.labels.error)
      ensures r.Ok? ==> |r.value| == |api.labels.value.GetOr([])|
      ensures r.Ok? ==> forall i :: 0 <= i < |r.value| ==>
        r.value[i] == AppliedLabel(api.labels.value.GetOr([])[i].name.GetOr(""), api.labels.value.GetOr([])[i].id.GetOr(""))
    {
      match api.labels
      case Err(cause) => r := Err(Wrap("listLabels", cause));
      case Ok(listed) =>
        var ls := listed.GetOr([]);
        r := Ok(seq(|ls|, i requires 0 <= i < |ls| => AppliedLabel(OrElse(ls[i].name, ""), OrElse(ls[i].id, ""))));
    }

    /** `ensureLabelsExist(labels)`: one label listing, then for each label
        the existing id or a creation. */
    method EnsureLabelsExist(labels: seq<LabelDefinition>) returns (r: Result<StrMap, Error>)
      modifies this
      ensures (r, createRequests) == EnsureSpec(api, labels, old(createRequests))
      ensures credentials == old(credentials) && listRequests == old(listRequests) && modifications == old(modifications)
    {
      if api.labels.Err? {
        return Err(Wrap("ensureLabelsExist", api.labels.error));
      }
      var existing := api.labels.value.GetOr([]);
      var labelMap := Empty;
      ghost var created0 := createRequests;
      for k := 0 to |labels|
        invariant EnsureFrom(api, existing, labels, 0, Empty, created0) == EnsureFrom(api, existing, labels, k, labelMap, createRequests)
        invariant credentials == old(credentials) && listRequests == old(listRequests) && modifications == old(modifications)
      {
        var def := labels[k];
        var found := FindLabel(existing, def.name, 0);
        if found.Some? && Truthy(found.value.id) {
          labelMap := Put(labelMap, def.name, found.value.id.value);
        } else {
          createRequests := createRequests + [def];
          var created := api.create(def);
          if created.Err? {
            return Err(Wrap("ensureLabelsExist", created.error));
          }
          if Truthy(created.value) {
            labelMap := Put(labelMap, def.name, created.value.value);
          }
        }
      }
      r := Ok(labelMap);
    }

    /** `getEmails(options)`: pages through the listing until `maxResults`
        summaries are collected, a page is empty or there is no next page. */
    method GetEmails(options: GetEmailsOptions) returns (r: Result<seq<EmailSummary>, Error>)
      requires FinitePaging(api)
      modifies this
      ensures (r, listRequests) == GetEmailsSpec(api, options, old(listRequests))
      ensures credentials == old(credentials) && createRequests == old(createRequests) && modifications == old(modifications)
    {
      var max := options.maxResults.GetOr(DefaultMaxResults);
      var q := SearchQuery(options);
      var emails: seq<EmailSummary> := [];
      var token := options.pageToken;
      ghost var log0 := listRequests;
      while |emails| < max
        invariant |emails| <= max
        invariant Collect(api, q, options.pageToken, max, [], log0) == Collect(api, q, token, max, emails, listRequests)
        invariant credentials == old(credentials) && createRequests == old(createRequests) && modifications == old(modifications)
        decreases api.rank(q, token)
      {
        var req := ListRequest(q, token, Min(PageLimit, max - |emails|));
        listRequests := listRequests + [req];
        var res := api.list(req);
        if res.Err? {
          return Err(Wrap("getEmails", res.error));
        }
        if res.value.messages.None? {
          break;
        }
        var more := FetchPage(res.value.messages.value, emails, max);
        if more.Err? {
          return Err(Wrap("getEmails", more.error));
        }
        emails := more.value;
        token := res.value.nextPageToken;
        if !Truthy(token) {
          break;
        }
      }
      r := Ok(emails);
    }

    /** The inner loop of `getEmails` over one page of the listing. */
    method FetchPage(msgs: seq<MessageRef>, collected: seq<EmailSummary>, max: nat) returns (r: Result<seq<EmailSummary>, string>)
      requires |collected| <= max
      ensures r == FetchFrom(api, msgs, 0, collected, max)
    {
      var emails := collected;
      for j := 0 to |msgs|
        invariant |emails| <= max
        invariant FetchFrom(api, msgs, 0, collected, max) == FetchFrom(api, msgs, j, emails, max)
      {
        var msg := msgs[j];
        if !Truthy(msg.id) || |emails| >= max {
          continue;
        }
        var full := api.metadata(msg.id.value);
        if full.Err? {
          return Err(full.error);
        }
        emails := emails + [Summary(msg, full.value)];
      }
      r := Ok(emails);
    }

    /** `hasLabels(emailId, labelIds)`: whether the message carries any of
        the ids. */
    method HasLabels(emailId: string, labelIds: seq<string>) returns (r: Result<bool, Error>)
      ensures r.Err? <==> api.messageLabels(emailId).Err?
      ensures r.Err? ==> r.error == Wrap("hasLabels", api.messageLabels(emailId).error)
      ensures r.Ok? ==> (r.value <==> exists i, j :: 0 <= i < |labelIds| && 0 <= j < |api.messageLabels(emailId).value.GetOr([])|
                                        && labelIds[i] == api.messageLabels(emailId).value.GetOr([])[j])
    {
      match api.messageLabels(emailId)
      case Err(cause) => r := Err(Wrap("hasLabels", cause));
      case Ok(ids) =>
        var msgLabelIds := ids.GetOr([]);
        r := Ok(AnyOf(labelIds, msgLabelIds));
    }

    /** `applyLabel`, `removeLabel` and `trashEmail`: one modification
        request each. */
    method Modify(m: Modification) returns (failure: Option<Error>)
      modifies this
      ensures modifications == old(modifications) + [m]
      ensures failure.None? <==> api.change(m).None?
      ensures failure.Some? ==> failure.value == Wrap(OperationName(m), api.change(m).value)
      ensures credentials == old(credentials) && listRequests == old(listRequests) && createRequests == old(createRequests)
    {
      modifications := modifications + [m];
      var answer := api.change(m);
      failure := if answer.Some? then Some(Wrap(OperationName(m), answer.value)) else None;
    }
  }

  function OperationName(m: Modification): string {
    match m
    case AddLabel(_, _) => "applyLabel"
    case RemoveLabel(_, _) => "removeLabel"
    case Trash(_) => "trashEmail"
  }
}
