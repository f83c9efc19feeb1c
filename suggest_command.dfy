/** The pure parts of the `suggest` command, which asks a language model for a
    label configuration from a sample of recent emails: the numbered sample
    text put into the prompt (the same `summarizeEmails` in both copies of
    the command, apps/cli/src/commands/suggest.ts and
    src/cli/commands/suggest.ts) and the `--max=` argument of the app's
    copy. */
module SuggestCommand {
  import opened Wrappers
  import opened Text
  import opened Mail
  import opened JsNumber

  const PreviewLength := 100
  const DefaultMax := "200"
  const MaxFlag := "--max="

  // ----- the email sample -----

  /** The entry of the email at position `i` (counted from 0): its number
      counted from 1, its sender, then indented its subject and the first 100
      characters of its snippet. */
  function Entry(e: EmailSummary, i: nat): string {
    NatToString(i + 1) + ". From: " + e.from + "\n   Subject: " + e.subject + "\n   Preview: " + Prefix(e.snippet, PreviewLength)
  }

  function Entries(emails: seq<EmailSummary>): (r: seq<string>)
    ensures |r| == |emails|
    ensures forall i :: 0 <= i < |emails| ==> r[i] == Entry(emails[i], i)
  {
    seq(|emails|, i requires 0 <= i < |emails| => Entry(emails[i], i))
  }

  /** `summarizeEmails(emails)` */
  function Summarize(emails: seq<EmailSummary>): string {
    Join(Entries(emails), "\n\n")
  }

  /** An entry opens with its number and the sender and closes with a
      preview of at most 100 characters that begins the snippet. */
  lemma EntryShape(e: EmailSummary, i: nat)
    ensures StartsWith(Entry(e, i), NatToString(i + 1) + ". From: " + e.from)
    ensures EndsWith(Entry(e, i), "\n   Preview: " + Prefix(e.snippet, PreviewLength))
    ensures |Prefix(e.snippet, PreviewLength)| <= PreviewLength && StartsWith(e.snippet, Prefix(e.snippet, PreviewLength))
    ensures |e.snippet| <= PreviewLength ==> Prefix(e.snippet, PreviewLength) == e.snippet
  {
    var head := NatToString(i + 1) + ". From: " + e.from;
    var middle := "\n   Subject: " + e.subject;
    var tail := "\n   Preview: " + Prefix(e.snippet, PreviewLength);
    assert Entry(e, i) == head + (middle + tail);
    StartsWithAppend(head, middle + tail);
    assert Entry(e, i) == (head + middle) + tail;
    EndsWithAppend(head + middle, tail);
  }

  /** No email, no text; one more email adds a blank line and its entry,
      numbered after the others. */
  lemma SummarizeSnoc(emails: seq<EmailSummary>, e: EmailSummary)
    ensures Summarize([]) == ""
    ensures emails == [] ==> Summarize(emails + [e]) == Entry(e, 0)
    ensures emails != [] ==> Summarize(emails + [e]) == Summarize(emails) + "\n\n" + Entry(e, |emails|)
  {
    assert Entries(emails + [e]) == Entries(emails) + [Entry(e, |emails|)];
    if emails != [] {
      JoinAppend(Entries(emails), Entry(e, |emails|), "\n\n");
    }
  }

  /** Every email's entry, with its position counted from 1, is in the
      sample text. */
  lemma SummarizeListsEach(emails: seq<EmailSummary>, i: nat)
    requires i < |emails|
    ensures Contains(Summarize(emails), Entry(emails[i], i))
  {
    JoinContains(Entries(emails), "\n\n", i);
  }

  // ----- the --max= argument -----

  /** `args.find(a => a.startsWith('--max='))`, from position `from` on. */
  function FirstMaxArg(args: seq<string>, from: nat): (r: Option<nat>)
    requires from <= |args|
    decreases |args| - from
    ensures r.Some? ==> from <= r.value < |args| && StartsWith(args[r.value], MaxFlag)
    ensures r.Some? ==> forall j :: from <= j < r.value ==> !StartsWith(args[j], MaxFlag)
    ensures r.None? ==> forall j :: from <= j < |args| ==> !StartsWith(args[j], MaxFlag)
  {
    if from == |args| then None
    else if StartsWith(args[from], MaxFlag) then Some(from)
    else FirstMaxArg(args, from + 1)
  }

  /** `?.split('=')[1] || '200'`: the text between the first and the second
      `=` of that argument, or `200` when there is no such argument or that
      text is empty. */
  function MaxText(args: seq<string>): (t: string)
    ensures t != "" && forall k :: 0 <= k < |t| ==> t[k] != '='
  {
    match FirstMaxArg(args, 0)
    case None => DefaultMax
    case Some(i) =>
      var value := BeforeChar(args[i][|MaxFlag|..], '=');
      if value != "" then value else DefaultMax
  }

  /** `Number.parseInt` of that text: how many emails to fetch. */
  function MaxEmails(args: seq<string>): JsInt {
    ParseInt(MaxText(args))
  }

  /** The default text reads as 200. */
  lemma DefaultMaxValue()
    ensures ParseInt(DefaultMax) == Int(200)
  {
    assert NatToString(2) == "2";
    assert NatToString(20) == "20";
    assert NatToString(200) == DefaultMax;
    ParseIntDecimal("", false, 200, "");
    assert "" + SignText(false) + NatToString(200) + "" == DefaultMax;
  }

  /** Without a `--max=` argument, 200 emails are fetched. */
  lemma MaxEmailsAbsent(args: seq<string>)
    requires forall j :: 0 <= j < |args| ==> !StartsWith(args[j], MaxFlag)
    ensures MaxEmails(args) == Int(200)
  {
    DefaultMaxValue();
    assert FirstMaxArg(args, 0).None?;
  }

  /** With an empty `--max=` value, 200 emails are fetched. */
  lemma MaxEmailsEmpty(args: seq<string>)
    ensures MaxEmails([MaxFlag] + args) == Int(200)
  {
    var a := [MaxFlag] + args;
    assert StartsWith(a[0], MaxFlag);
    assert FirstMaxArg(a, 0) == Some(0);
    assert a[0][|MaxFlag|..] == "";
    assert MaxText(a) == DefaultMax;
    DefaultMaxValue();
  }

  /** `--max=N` for a numeral N fetches N emails. */
  lemma MaxEmailsGiven(args: seq<string>, n: nat)
    ensures MaxEmails([MaxFlag + NatToString(n)] + args) == Int(n)
  {
    var digits := NatToString(n);
    MaxArgValue(args, digits, "");
    assert MaxFlag + digits + "" == MaxFlag + digits;
    NumeralValue(n);
  }

  /** `--max=N=...`: the text after a second `=` is dropped, N emails are
      fetched. */
  lemma MaxEmailsGivenWithTail(args: seq<string>, n: nat, rest: string)
    ensures MaxEmails([MaxFlag + NatToString(n) + "=" + rest] + args) == Int(n)
  {
    var digits := NatToString(n);
    MaxArgValue(args, digits, "=" + rest);
    assert MaxFlag + digits + "=" + rest == MaxFlag + digits + ("=" + rest);
    NumeralValue(n);
  }

  /** A decimal numeral reads as its value. */
  lemma NumeralValue(n: nat)
    ensures ParseInt(NatToString(n)) == Int(n)
  {
    ParseIntDecimal("", false, n, "");
    assert "" + SignText(false) + NatToString(n) + "" == NatToString(n);
  }

  lemma MaxArgValue(args: seq<string>, digits: string, tail: string)
    requires digits != [] && AllDigits(digits)
    requires tail == [] || tail[0] == '='
    ensures MaxText([MaxFlag + digits + tail] + args) == digits
  {
    var a := MaxFlag + digits + tail;
    assert a[..|MaxFlag|] == MaxFlag;
    assert ([a] + args)[0] == a;
    assert a[|MaxFlag|..] == digits + tail;
    BeforeDigits(digits, tail);
  }

  /** The text before `=` of digits followed by `=` or nothing is the digits. */
  lemma {:induction false} BeforeDigits(digits: string, tail: string)
    requires AllDigits(digits)
    requires tail == [] || tail[0] == '='
    ensures BeforeChar(digits + tail, '=') == digits
  {
    if digits != [] {
      assert (digits + tail)[0] == digits[0];
      assert (digits + tail)[1..] == digits[1..] + tail;
      BeforeDigits(digits[1..], tail);
    }
  }
}
